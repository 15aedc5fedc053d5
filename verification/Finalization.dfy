/**
 * Finalization as a protocol: request handlers, the polling worker and cancellation race to
 * finalize accounting records, and only winners credit budgets. Modelled after
 * `internal/api/handler/accounting.go`, `internal/responses/accounting.go`,
 * `internal/responses/worker.go`, `internal/api/handler/responses.go` and the restart in
 * `internal/keystore/spend.go`.
 *
 * Every SQL statement or transaction and every credit is one atomic step; between the steps of one
 * actor, any steps of the others and a crash can happen.
 */
module Finalization {
  import opened Deployments
  import opened Accounting
  import opened AccountingStore

  /** An actor with a final snapshot in hand, before and after it won its transaction. */
  datatype Finalizer =
    | Ready(record: Record, job: Option<JobUpdate>)
    | Winner(record: Record, keyPaid: bool, poolsPaid: nat)
    | Finished

  /**
   * The database survives a crash; the rest does not. The last four fields only keep history; the
   * pool credits in `live` are those since the last restart.
   */
  datatype State = State(
    db: Db, spend: map<int, nat>, pools: map<string, nat>, finalizers: seq<Finalizer>,
    ghost wins: seq<nat>, ghost keyCredits: seq<nat>, ghost poolCredits: seq<(nat, nat)>,
    ghost live: seq<(nat, nat)>)

  datatype Step =
    | SavePending(collector: Record)
    | Finish(collector: Record, job: Option<JobUpdate>)
    | Commit(i: nat)
    | Abort(i: nat)
    | PayKey(i: nat)
    | PayPool(i: nat)
    | Flush(key: int)
    | CreateJob(id: nat, accounting: nat, status: string)
    | UpdateJob(update: JobUpdate)
    | Restart

  // ---------- Steps ----------

  /** A job update fits a record when the job was created for that record. */
  predicate JobFits(db: Db, r: Record, job: Option<JobUpdate>)
  {
    job.Some? ==>
      && job.value.job in db.jobs && db.jobs[job.value.job].accounting == r.id
      && IsTerminal(job.value.status)
  }

  predicate Enabled(s: State, e: Step)
  {
    match e
    case SavePending(c) => c.state == Final ==> IsFinal(s.db, c.id)
    case Finish(c, job) => JobFits(s.db, c, job)
    case Commit(i) => i < |s.finalizers| && s.finalizers[i].Ready?
    case Abort(i) => i < |s.finalizers| && s.finalizers[i].Ready?
    case PayKey(i) => i < |s.finalizers| && s.finalizers[i].Winner? && !s.finalizers[i].keyPaid
    case PayPool(i) =>
      && i < |s.finalizers| && s.finalizers[i].Winner? && s.finalizers[i].keyPaid
      && s.finalizers[i].poolsPaid < |s.finalizers[i].record.attempts|
    case Flush(k) => k in s.spend && s.spend[k] > 0
    case CreateJob(id, _, status) => id !in s.db.jobs && !IsTerminal(status)
    case UpdateJob(u) => !IsTerminal(u.status)
    case Restart => true
  }

  /** The records as `FinishAccounting` and `complete` commit them. */
  function Committed(s: State, i: nat): State
    requires Enabled(s, Commit(i))
  {
    var f := s.finalizers[i];
    if IsFinal(s.db, f.record.id) then s.(finalizers := s.finalizers[i := Finished])
    else
      s.(db := Finalized(s.db, f.record, Entry(f.record), f.job),
         finalizers := s.finalizers[i := Winner(f.record, false, 0)],
         wins := s.wins + [f.record.id])
  }

  function KeyPaid(s: State, i: nat): State
    requires Enabled(s, PayKey(i))
  {
    var f := s.finalizers[i];
    var t := s.(finalizers := s.finalizers[i := f.(keyPaid := true)]);
    var cost := Owed(f.record.cost.amount);
    if f.record.key.Some? && cost > 0 then
      t.(spend := s.spend[f.record.key.value := Spend(s.spend, f.record.key.value) + cost],
         keyCredits := s.keyCredits + [f.record.id])
    else t
  }

  function PoolSpend(pools: map<string, nat>, pool: string): nat
  {
    if pool in pools then pools[pool] else 0
  }

  function PoolPaid(s: State, i: nat): State
    requires Enabled(s, PayPool(i))
  {
    var f := s.finalizers[i];
    var n := f.poolsPaid;
    var t := s.(finalizers := s.finalizers[i := f.(poolsPaid := n + 1)]);
    var a := f.record.attempts[n];
    var cost := Owed(a.cost.amount);
    if cost > 0 && a.pool != "" then
      t.(pools := s.pools[a.pool := PoolSpend(s.pools, a.pool) + cost],
         poolCredits := s.poolCredits + [(f.record.id, n)], live := s.live + [(f.record.id, n)])
    else t
  }

  /** A crash forgets every actor and total; the spend totals are then read from the usage rows. */
  function Restarted(s: State): State
  {
    s.(spend := Loaded(s.db.rows), pools := map[], finalizers := [], live := [])
  }

  function Next(s: State, e: Step): State
  {
    if !Enabled(s, e) then s
    else
      match e
      case SavePending(c) => s.(db := Put(s.db, SnapshotOf(c, false)))
      case Finish(c, job) => s.(finalizers := s.finalizers + [Ready(SnapshotOf(c, true), job)])
      case Commit(i) => Committed(s, i)
      case Abort(i) => s.(finalizers := s.finalizers[i := Finished])
      case PayKey(i) => KeyPaid(s, i)
      case PayPool(i) => PoolPaid(s, i)
      case Flush(k) => s.(db := s.db.(rows := s.db.rows + [FlushRow(k, s.spend[k])]))
      case CreateJob(id, accounting, status) =>
        s.(db := s.db.(jobs := s.db.jobs[id := Job(accounting, status)]))
      case UpdateJob(u) => s.(db := s.db.(jobs := Updated(s.db.jobs, u)))
      case Restart => Restarted(s)
  }

  function Exec(s: State, steps: seq<Step>): State
  {
    if steps == [] then s else Next(Exec(s, steps[..|steps| - 1]), steps[|steps| - 1])
  }

  function Started(db: Db): State
  {
    State(db, Loaded(db.rows), map[], [], [], [], [], [])
  }

  // ---------- Invariants ----------

  ghost predicate Distinct<T(!new)>(s: seq<T>)
  {
    forall i, j | 0 <= i < j < |s| :: s[i] != s[j]
  }

  lemma DistinctSnoc<T(!new)>(s: seq<T>, x: T)
    requires Distinct(s) && x !in s
    ensures Distinct(s + [x])
  {
  }

  predicate SameRequest(a: LogRow, b: LogRow)
  {
    a.UsageRow? && b.UsageRow? && a.accounting == b.accounting
  }

  /** No request has two usage rows, and only final records have any. */
  ghost predicate RowsOk(db: Db)
  {
    && (forall i, j | 0 <= i < j < |db.rows| :: !SameRequest(db.rows[i], db.rows[j]))
    && (forall row | row in db.rows && row.UsageRow? :: IsFinal(db, row.accounting))
  }

  /** Only a finalized record's job can have a terminal status. */
  ghost predicate JobsOk(db: Db)
  {
    forall j | j in db.jobs && IsTerminal(db.jobs[j].status) :: IsFinal(db, db.jobs[j].accounting)
  }

  ghost predicate DbOk(db: Db)
  {
    RowsOk(db) && JobsOk(db)
  }

  ghost predicate ReadyOk(db: Db, f: Finalizer)
  {
    f.Ready? ==> JobFits(db, f.record, f.job) && (f.record.attempts == [] ==> Owed(f.record.cost.amount) == 0)
  }

  /** A winner's record is the stored one, and its unpaid credits are not in the history. */
  ghost predicate WinnerOk(s: State, f: Finalizer)
  {
    f.Winner? ==>
      && f.record.id in s.wins
      && f.record.id in s.db.records && s.db.records[f.record.id] == AccountingRow(Final, f.record)
      && (!f.keyPaid ==> f.record.id !in s.keyCredits)
      && (forall n | (f.record.id, n) in s.poolCredits :: n < f.poolsPaid)
  }

  predicate Rivals(f: Finalizer, g: Finalizer)
  {
    f.Winner? && g.Winner? && f.record.id == g.record.id
  }

  ghost predicate FinalizersOk(s: State)
  {
    && (forall f | f in s.finalizers :: ReadyOk(s.db, f))
    && (forall f | f in s.finalizers :: WinnerOk(s, f))
    && (forall i, j | 0 <= i < j < |s.finalizers| :: !Rivals(s.finalizers[i], s.finalizers[j]))
  }

  ghost predicate HistoryOk(s: State)
  {
    && Distinct(s.wins) && Distinct(s.keyCredits) && Distinct(s.poolCredits)
    && (forall id | id in s.wins :: IsFinal(s.db, id))
    && (forall id | id in s.keyCredits :: id in s.wins)
    && (forall c | c in s.poolCredits :: c.0 in s.wins)
  }

  /** What a winner still has to credit to a key. */
  function Due(f: Finalizer, k: int): nat
  {
    if f.Winner? && !f.keyPaid && f.record.key == Some(k) then Owed(f.record.cost.amount) else 0
  }

  function Uncredited(fs: seq<Finalizer>, k: int): nat
  {
    if fs == [] then 0 else Uncredited(fs[..|fs| - 1], k) + Due(fs[|fs| - 1], k)
  }

  /** Memory plus what winners still owe is what the usage rows say. */
  ghost predicate Balanced(s: State, k: int)
  {
    Spend(s.spend, k) + Uncredited(s.finalizers, k) == Logged(s.db.rows, k)
  }

  ghost predicate Inv(s: State)
  {
    DbOk(s.db) && FinalizersOk(s) && HistoryOk(s) && forall k :: Balanced(s, k)
  }

  // ---------- Sums ----------

  lemma {:induction false} UncreditedUpdate(fs: seq<Finalizer>, i: nat, f: Finalizer, k: int)
    requires i < |fs|
    ensures Uncredited(fs[i := f], k) == Uncredited(fs, k) - Due(fs[i], k) + Due(f, k)
  {
    hide Due;
    var n := |fs| - 1;
    if i == n {
      assert fs[i := f][..n] == fs[..n];
    } else {
      assert fs[i := f][..n] == fs[..n][i := f];
      UncreditedUpdate(fs[..n], i, f, k);
    }
  }

  lemma UncreditedSnoc(fs: seq<Finalizer>, f: Finalizer, k: int)
    ensures Uncredited(fs + [f], k) == Uncredited(fs, k) + Due(f, k)
  {
    assert (fs + [f])[..|fs|] == fs;
  }

  // ---------- Final records stay ----------

  lemma StepKeepsFinal(s: State, e: Step, id: nat)
    requires IsFinal(s.db, id)
    ensures IsFinal(Next(s, e).db, id) && Next(s, e).db.records[id] == s.db.records[id]
  {
    hide SnapshotOf, Owed;
  }

  /** Once a record is final, no step of any actor and no restart ever changes it. */
  lemma {:induction false} FinalIsForever(s: State, steps: seq<Step>, id: nat)
    requires IsFinal(s.db, id)
    ensures IsFinal(Exec(s, steps).db, id) && Exec(s, steps).db.records[id] == s.db.records[id]
  {
    hide Next;
    if steps != [] {
      FinalIsForever(s, steps[..|steps| - 1], id);
      StepKeepsFinal(Exec(s, steps[..|steps| - 1]), steps[|steps| - 1], id);
    }
  }

  // ---------- Preservation, step by step ----------

  ghost predicate KeepsFinals(d: Db, e: Db)
  {
    forall id | IsFinal(d, id) :: id in e.records && e.records[id] == d.records[id]
  }

  ghost predicate KeepsJobs(d: Db, e: Db)
  {
    forall j | j in d.jobs :: j in e.jobs && e.jobs[j].accounting == d.jobs[j].accounting
  }

  lemma DatabaseMoves(s: State, t: State)
    requires FinalizersOk(s) && HistoryOk(s)
    requires t == s.(db := t.db) && KeepsFinals(s.db, t.db) && KeepsJobs(s.db, t.db)
    ensures FinalizersOk(t) && HistoryOk(t)
  {
    hide Owed, IsTerminal, Distinct;
    forall f | f in s.finalizers ensures ReadyOk(t.db, f) && WinnerOk(t, f) {
      assert ReadyOk(s.db, f) && WinnerOk(s, f);
      assert f.Winner? ==> IsFinal(s.db, f.record.id);
    }
  }

  lemma SaveKeeps(s: State, c: Record)
    requires Inv(s) && Enabled(s, SavePending(c))
    ensures Inv(Next(s, SavePending(c)))
  {
    hide SnapshotOf, FinalizersOk, HistoryOk, IsTerminal;
    var t := Next(s, SavePending(c));
    DatabaseMoves(s, t);
    assert forall k :: Balanced(s, k) ==> Balanced(t, k);
  }

  lemma JobStepsKeep(s: State, e: Step)
    requires Inv(s) && Enabled(s, e) && (e.CreateJob? || e.UpdateJob?)
    ensures Inv(Next(s, e))
  {
    hide FinalizersOk, HistoryOk, IsTerminal;
    var t := Next(s, e);
    DatabaseMoves(s, t);
    assert forall k :: Balanced(s, k) ==> Balanced(t, k);
  }

  lemma FlushKeeps(s: State, k: int)
    requires Inv(s) && Enabled(s, Flush(k))
    ensures Inv(Next(s, Flush(k)))
  {
    hide FinalizersOk, HistoryOk, IsTerminal, Uncredited, Logged;
    var t := Next(s, Flush(k));
    DatabaseMoves(s, t);
    forall j ensures Balanced(t, j) {
      assert Balanced(s, j);
      LoggedSnoc(s.db.rows, FlushRow(k, s.spend[k]), j);
    }
  }

  lemma NoAttemptsOweNothing(c: Record)
    requires c.attempts == []
    ensures Owed(SnapshotOf(c, true).cost.amount) == 0
  {
    assert ShownAll(c.attempts, true) == [];
  }

  lemma FinishKeeps(s: State, c: Record, job: Option<JobUpdate>)
    requires Inv(s) && Enabled(s, Finish(c, job))
    ensures Inv(Next(s, Finish(c, job)))
  {
    hide Owed, HistoryOk, DbOk, Uncredited, Logged, TotalCost, Aggregated, CoverageOf, IsTerminal;
    var t := Next(s, Finish(c, job));
    var f := Ready(SnapshotOf(c, true), job);
    if c.attempts == [] {
      NoAttemptsOweNothing(c);
    }
    assert ReadyOk(t.db, f);
    assert forall g | g in s.finalizers :: WinnerOk(s, g) ==> WinnerOk(t, g);
    SameHistory(s, t);
    forall k ensures Balanced(t, k) {
      assert Balanced(s, k);
      UncreditedSnoc(s.finalizers, f, k);
    }
  }

  /** The history conditions do not mention the actors or the totals. */
  lemma SameHistory(s: State, t: State)
    requires HistoryOk(s) && t.db == s.db && t.wins == s.wins
    requires t.keyCredits == s.keyCredits && t.poolCredits == s.poolCredits
    ensures HistoryOk(t)
  {
  }

  lemma AbortKeeps(s: State, i: nat)
    requires Inv(s) && Enabled(s, Abort(i))
    ensures Inv(Next(s, Abort(i)))
  {
    hide Owed, HistoryOk, DbOk, Uncredited, Logged, JobFits;
    var t := Next(s, Abort(i));
    SameHistory(s, t);
    forall j | 0 <= j < |s.finalizers| && j != i
      ensures !Rivals(s.finalizers[j], Finished) && WinnerOk(t, s.finalizers[j])
    {
      assert WinnerOk(s, s.finalizers[j]);
    }
    Replaced(s, t, i, Finished);
    forall k ensures Balanced(t, k) {
      assert Balanced(s, k);
      UncreditedUpdate(s.finalizers, i, Finished, k);
    }
  }

  /** Replacing one actor by one that is in order and has no rival leaves all in order. */
  lemma Replaced(s: State, t: State, i: nat, f: Finalizer)
    requires FinalizersOk(s) && i < |s.finalizers|
    requires t.db == s.db && t.finalizers == s.finalizers[i := f]
    requires ReadyOk(t.db, f) && WinnerOk(t, f)
    requires forall j | 0 <= j < |s.finalizers| && j != i :: !Rivals(s.finalizers[j], f) && WinnerOk(t, s.finalizers[j])
    ensures FinalizersOk(t)
  {
    hide ReadyOk, WinnerOk;
    forall a, b | 0 <= a < b < |t.finalizers| ensures !Rivals(t.finalizers[a], t.finalizers[b]) {
      if a == i {
        assert !Rivals(s.finalizers[b], f);
      }
    }
  }

  lemma FinalizedKeeps(db: Db, r: Record, job: Option<JobUpdate>)
    requires DbOk(db) && !IsFinal(db, r.id) && JobFits(db, r, job)
    ensures DbOk(Finalized(db, r, Entry(r), job))
    ensures KeepsFinals(db, Finalized(db, r, Entry(r), job)) && KeepsJobs(db, Finalized(db, r, Entry(r), job))
  {
    hide Owed, IsTerminal;
    var after := Finalized(db, r, Entry(r), job);
    forall i, j | 0 <= i < j < |after.rows| ensures !SameRequest(after.rows[i], after.rows[j]) {
      assert db.rows[i] in db.rows;
    }
  }

  lemma EntryCounts(r: Record, rows: seq<LogRow>, k: int)
    requires r.attempts == [] ==> Owed(r.cost.amount) == 0
    ensures Logged(if Entry(r).Some? then rows + [Entry(r).value] else rows, k) ==
            Logged(rows, k) + Due(Winner(r, false, 0), k)
  {
    hide Owed;
    if Entry(r).Some? {
      LoggedSnoc(rows, Entry(r).value, k);
    }
  }

  lemma WinKeepsOthers(s: State, t: State, r: Record, f: Finalizer)
    requires WinnerOk(s, f) && ReadyOk(s.db, f)
    requires KeepsFinals(s.db, t.db) && KeepsJobs(s.db, t.db)
    requires t.wins == s.wins + [r.id] && t.keyCredits == s.keyCredits && t.poolCredits == s.poolCredits
    ensures WinnerOk(t, f) && ReadyOk(t.db, f)
  {
    hide Owed, IsTerminal;
    assert f.Winner? ==> IsFinal(s.db, f.record.id);
  }

  lemma WinKeepsHistory(s: State, t: State, r: Record)
    requires HistoryOk(s) && !IsFinal(s.db, r.id) && IsFinal(t.db, r.id) && KeepsFinals(s.db, t.db)
    requires t.wins == s.wins + [r.id] && t.keyCredits == s.keyCredits && t.poolCredits == s.poolCredits
    ensures HistoryOk(t) && r.id !in s.keyCredits && forall n :: (r.id, n) !in s.poolCredits
  {
    DistinctSnoc(s.wins, r.id);
  }

  lemma CommitKeeps(s: State, i: nat)
    requires Inv(s) && Enabled(s, Commit(i))
    ensures Inv(Next(s, Commit(i)))
  {
    hide Owed, HistoryOk, DbOk, Uncredited, Logged, JobFits, Entry;
    hide KeepsFinals, KeepsJobs, FinalizersOk, ReadyOk, WinnerOk;
    var r := s.finalizers[i].record;
    if IsFinal(s.db, r.id) {
      AbortKeeps(s, i);
    } else {
      var t := Next(s, Commit(i));
      var f := Winner(r, false, 0);
      ReadyAt(s, i);
      FinalizedKeeps(s.db, r, s.finalizers[i].job);
      WinKeepsHistory(s, t, r);
      NewWinner(s, t, i, f);
      forall k ensures Balanced(t, k) {
        assert Balanced(s, k);
        EntryCounts(r, s.db.rows, k);
        UncreditedUpdate(s.finalizers, i, f, k);
      }
    }
  }

  lemma ReadyAt(s: State, i: nat)
    requires FinalizersOk(s) && Enabled(s, Commit(i))
    ensures JobFits(s.db, s.finalizers[i].record, s.finalizers[i].job)
    ensures s.finalizers[i].record.attempts == [] ==> Owed(s.finalizers[i].record.cost.amount) == 0
  {
    hide Owed, JobFits;
    assert ReadyOk(s.db, s.finalizers[i]);
  }

  lemma NewWinner(s: State, t: State, i: nat, f: Finalizer)
    requires FinalizersOk(s) && i < |s.finalizers| && f.Winner? && !f.keyPaid && f.poolsPaid == 0
    requires !IsFinal(s.db, f.record.id)
    requires KeepsFinals(s.db, t.db) && KeepsJobs(s.db, t.db)
    requires f.record.id in t.db.records && t.db.records[f.record.id] == AccountingRow(Final, f.record)
    requires t.wins == s.wins + [f.record.id] && t.keyCredits == s.keyCredits && t.poolCredits == s.poolCredits
    requires f.record.id !in s.keyCredits && forall n :: (f.record.id, n) !in s.poolCredits
    requires t.finalizers == s.finalizers[i := f]
    ensures FinalizersOk(t)
  {
    hide KeepsFinals, KeepsJobs, Owed, JobFits, IsTerminal;
    var fs := s.finalizers;
    forall j | 0 <= j < |fs|
      ensures ReadyOk(t.db, fs[j]) && WinnerOk(t, fs[j]) && !Rivals(fs[j], f) && !Rivals(f, fs[j])
    {
      assert ReadyOk(s.db, fs[j]) && WinnerOk(s, fs[j]);
      WinKeepsOthers(s, t, f.record, fs[j]);
    }
    assert ReadyOk(t.db, f) && WinnerOk(t, f);
    forall g | g in t.finalizers ensures ReadyOk(t.db, g) && WinnerOk(t, g) {
      var j :| 0 <= j < |t.finalizers| && t.finalizers[j] == g;
      assert g == f || g == fs[j];
    }
    forall a, b | 0 <= a < b < |t.finalizers| ensures !Rivals(t.finalizers[a], t.finalizers[b]) {
      assert !Rivals(fs[a], fs[b]);
    }
  }

  lemma WinnerAt(s: State, i: nat)
    requires FinalizersOk(s) && i < |s.finalizers|
    ensures WinnerOk(s, s.finalizers[i]) && ReadyOk(s.db, s.finalizers[i])
    ensures forall j | 0 <= j < |s.finalizers| && j != i :: !Rivals(s.finalizers[j], s.finalizers[i])
    ensures forall j | 0 <= j < |s.finalizers| :: WinnerOk(s, s.finalizers[j])
  {
    hide WinnerOk, ReadyOk;
    forall j | 0 <= j < |s.finalizers| && j != i ensures !Rivals(s.finalizers[j], s.finalizers[i]) {
      assert j < i ==> !Rivals(s.finalizers[j], s.finalizers[i]);
      assert i < j ==> !Rivals(s.finalizers[i], s.finalizers[j]);
    }
  }

  lemma KeyHistory(s: State, t: State, id: nat)
    requires HistoryOk(s) && id in s.wins && id !in s.keyCredits
    requires t.db == s.db && t.wins == s.wins && t.poolCredits == s.poolCredits && t.keyCredits == s.keyCredits + [id]
    ensures HistoryOk(t)
  {
    DistinctSnoc(s.keyCredits, id);
  }

  lemma PayKeyKeeps(s: State, i: nat)
    requires Inv(s) && Enabled(s, PayKey(i))
    ensures Inv(Next(s, PayKey(i)))
  {
    hide Owed, DbOk, Uncredited, Logged, HistoryOk, FinalizersOk;
    var f := s.finalizers[i];
    var g := f.(keyPaid := true);
    var t := Next(s, PayKey(i));
    WinnerAt(s, i);
    if t.keyCredits != s.keyCredits {
      KeyHistory(s, t, f.record.id);
    } else {
      SameHistory(s, t);
    }
    forall j | 0 <= j < |s.finalizers| && j != i
      ensures !Rivals(s.finalizers[j], g) && WinnerOk(t, s.finalizers[j])
    {
      assert WinnerOk(s, s.finalizers[j]) && !Rivals(s.finalizers[j], f);
    }
    assert WinnerOk(t, g);
    Replaced(s, t, i, g);
    forall k ensures Balanced(t, k) {
      assert Balanced(s, k);
      UncreditedUpdate(s.finalizers, i, g, k);
    }
  }

  lemma PoolHistory(s: State, t: State, c: (nat, nat))
    requires HistoryOk(s) && c.0 in s.wins && c !in s.poolCredits
    requires t.db == s.db && t.wins == s.wins && t.keyCredits == s.keyCredits && t.poolCredits == s.poolCredits + [c]
    ensures HistoryOk(t)
  {
    DistinctSnoc(s.poolCredits, c);
  }

  lemma PayPoolKeeps(s: State, i: nat)
    requires Inv(s) && Enabled(s, PayPool(i))
    ensures Inv(Next(s, PayPool(i)))
  {
    hide Owed, DbOk, Uncredited, Logged, HistoryOk, FinalizersOk;
    var f := s.finalizers[i];
    var g := f.(poolsPaid := f.poolsPaid + 1);
    var t := Next(s, PayPool(i));
    WinnerAt(s, i);
    if t.poolCredits != s.poolCredits {
      assert (f.record.id, f.poolsPaid) !in s.poolCredits;
      PoolHistory(s, t, (f.record.id, f.poolsPaid));
    } else {
      SameHistory(s, t);
    }
    forall j | 0 <= j < |s.finalizers| && j != i
      ensures !Rivals(s.finalizers[j], g) && WinnerOk(t, s.finalizers[j])
    {
      assert WinnerOk(s, s.finalizers[j]) && !Rivals(s.finalizers[j], f);
    }
    assert WinnerOk(t, g);
    Replaced(s, t, i, g);
    forall k ensures Balanced(t, k) {
      assert Balanced(s, k);
      UncreditedUpdate(s.finalizers, i, g, k);
    }
  }

  lemma RestartKeeps(s: State)
    requires Inv(s)
    ensures Inv(Next(s, Restart))
  {
    hide Logged, Loaded, DbOk, HistoryOk;
    var t := Next(s, Restart);
    SameHistory(s, t);
    forall k ensures Balanced(t, k) {
      LoadedIsLogged(s.db.rows, k);
    }
  }

  lemma NextKeeps(s: State, e: Step)
    requires Inv(s)
    ensures Inv(Next(s, e))
  {
    hide Inv, Committed, KeyPaid, PoolPaid, Restarted, Put, Updated, SnapshotOf;
    if Enabled(s, e) {
      hide Enabled, Next;
      match e
      case SavePending(c) => SaveKeeps(s, c);
      case Finish(c, job) => FinishKeeps(s, c, job);
      case Commit(i) => CommitKeeps(s, i);
      case Abort(i) => AbortKeeps(s, i);
      case PayKey(i) => PayKeyKeeps(s, i);
      case PayPool(i) => PayPoolKeeps(s, i);
      case Flush(k) => FlushKeeps(s, k);
      case CreateJob(_, _, _) => JobStepsKeep(s, e);
      case UpdateJob(_) => JobStepsKeep(s, e);
      case Restart => RestartKeeps(s);
    }
  }

  // ---------- Every run ----------

  lemma {:induction false} RunsKeepInv(db: Db, steps: seq<Step>)
    requires DbOk(db)
    ensures Inv(Exec(Started(db), steps))
  {
    hide Next, Inv, DbOk;
    if steps == [] {
      StartIsOk(db);
    } else {
      RunsKeepInv(db, steps[..|steps| - 1]);
      NextKeeps(Exec(Started(db), steps[..|steps| - 1]), steps[|steps| - 1]);
    }
  }

  lemma StartIsOk(db: Db)
    requires DbOk(db)
    ensures Inv(Started(db))
  {
    forall k ensures Balanced(Started(db), k) {
      LoadedIsLogged(db.rows, k);
    }
  }

  /**
   * Whatever the interleaving, retries, aborts and crashes: each request is won at most once, has
   * at most one usage row, and is credited at most once to its key and per attempt to its pool, and
   * only after it was won.
   */
  lemma ExactlyOnce(db: Db, steps: seq<Step>)
    requires DbOk(db)
    ensures var s := Exec(Started(db), steps);
            && Distinct(s.wins)
            && (forall i, j | 0 <= i < j < |s.db.rows| :: !SameRequest(s.db.rows[i], s.db.rows[j]))
            && (forall id | id in s.wins :: IsFinal(s.db, id))
            && Distinct(s.keyCredits) && (forall id | id in s.keyCredits :: id in s.wins)
            && Distinct(s.poolCredits) && (forall c | c in s.poolCredits :: c.0 in s.wins)
  {
    hide Exec, FinalizersOk, Balanced;
    RunsKeepInv(db, steps);
  }

  /** A finalizer wins exactly when no one has won before; a missing row does not lose the charge. */
  lemma FirstCommitWins(s: State, i: nat)
    requires Enabled(s, Commit(i))
    ensures var r := s.finalizers[i].record; var t := Next(s, Commit(i));
            && (t.wins == s.wins + [r.id] <==> !IsFinal(s.db, r.id))
            && IsFinal(t.db, r.id)
            && (!IsFinal(s.db, r.id) ==> t.db.records[r.id].record == r)
            && (IsFinal(s.db, r.id) ==> t.db == s.db && t.wins == s.wins)
  {
    hide Owed;
  }

  /** In every reachable state, a key's total plus what winners have yet to credit is its logged spend. */
  lemma SpendIsConserved(db: Db, steps: seq<Step>, k: int)
    requires DbOk(db)
    ensures var s := Exec(Started(db), steps);
            Spend(s.spend, k) + Uncredited(s.finalizers, k) == Logged(s.db.rows, k)
  {
    hide Exec, FinalizersOk, HistoryOk, DbOk;
    RunsKeepInv(db, steps);
    assert Balanced(Exec(Started(db), steps), k);
  }

  /** A restart makes good exactly what the crash forgot: credits that were due but not yet made. */
  lemma RestartRecoversUncredited(db: Db, steps: seq<Step>, k: int)
    requires DbOk(db)
    ensures var s := Exec(Started(db), steps); var t := Next(s, Restart);
            && Spend(t.spend, k) == Logged(t.db.rows, k)
            && Spend(t.spend, k) == Spend(s.spend, k) + Uncredited(s.finalizers, k)
  {
    hide Exec, Loaded, Logged, DbOk;
    SpendIsConserved(db, steps, k);
    LoadedIsLogged(Exec(Started(db), steps).db.rows, k);
  }

  // ---------- Job status ----------

  predicate JobEnded(s: State, j: nat)
  {
    j in s.db.jobs && IsTerminal(s.db.jobs[j].status)
  }

  lemma StaysOpen(s: State, e: Step, j: nat)
    requires Inv(s) && j in s.db.jobs && IsFinal(s.db, s.db.jobs[j].accounting) && !JobEnded(s, j)
    ensures j in Next(s, e).db.jobs && !JobEnded(Next(s, e), j)
    ensures Next(s, e).db.jobs[j].accounting == s.db.jobs[j].accounting
  {
    hide Balanced, HistoryOk, DbOk, IsTerminal, SnapshotOf, Owed, WinnerOk;
    if Enabled(s, e) && e.Commit? {
      assert ReadyOk(s.db, s.finalizers[e.i]);
    }
  }

  lemma {:induction false} StaysOpenForever(s: State, steps: seq<Step>, j: nat)
    requires Inv(s) && j in s.db.jobs && IsFinal(s.db, s.db.jobs[j].accounting) && !JobEnded(s, j)
    ensures Inv(Exec(s, steps)) && !JobEnded(Exec(s, steps), j)
    ensures j in Exec(s, steps).db.jobs && Exec(s, steps).db.jobs[j].accounting == s.db.jobs[j].accounting
  {
    hide Inv, Next, JobEnded;
    if steps != [] {
      var front := steps[..|steps| - 1];
      StaysOpenForever(s, front, j);
      FinalIsForever(s, front, s.db.jobs[j].accounting);
      StaysOpen(Exec(s, front), steps[|steps| - 1], j);
      NextKeeps(Exec(s, front), steps[|steps| - 1]);
    }
  }

  /** Some continuation shows the job as ended. */
  ghost predicate MayEnd(s: State, j: nat)
  {
    exists steps :: JobEnded(Exec(s, steps), j)
  }

  /**
   * A job can still come to show a terminal status if and only if it shows one now or its
   * accounting is still open. Only the winning transaction writes a terminal status; any poll that
   * saw the job running earlier may overwrite it later, and then nothing repairs it: the job stays
   * in the worker's list, and every later finalization loses.
   */
  lemma MayEndIff(s: State, j: nat)
    requires Inv(s) && j in s.db.jobs
    ensures MayEnd(s, j) <==> JobEnded(s, j) || !IsFinal(s.db, s.db.jobs[j].accounting)
  {
    hide Inv, Next, Enabled, Exec;
    if JobEnded(s, j) {
      ExecNone(s);
      assert JobEnded(Exec(s, []), j);
    } else if !IsFinal(s.db, s.db.jobs[j].accounting) {
      CanEnd(s, j);
    } else if MayEnd(s, j) {
      var steps :| JobEnded(Exec(s, steps), j);
      StaysOpenForever(s, steps, j);
      assert false;
    }
  }

  lemma ExecNone(s: State)
    ensures Exec(s, []) == s
  {
  }

  lemma ExecTwo(s: State, d: Step, e: Step)
    ensures Exec(s, [d, e]) == Next(Next(s, d), e)
  {
    hide Next;
    assert [d, e][..1] == [d] && [d][..0] == [];
    assert Exec(s, [d]) == Next(Exec(s, []), d);
  }

  lemma CanEnd(s: State, j: nat)
    requires j in s.db.jobs && !IsFinal(s.db, s.db.jobs[j].accounting)
    ensures MayEnd(s, j)
  {
    var c := NewRecord(s.db.jobs[j].accounting, None);
    var finish, commit := Finish(c, Some(JobUpdate(j, "completed"))), Commit(|s.finalizers|);
    ExecTwo(s, finish, commit);
    FinishThenCommit(s, j, c);
    assert JobEnded(Exec(s, [finish, commit]), j);
  }

  lemma FinishThenCommit(s: State, j: nat, c: Record)
    requires j in s.db.jobs && !IsFinal(s.db, c.id) && s.db.jobs[j].accounting == c.id
    ensures JobEnded(Next(Next(s, Finish(c, Some(JobUpdate(j, "completed")))), Commit(|s.finalizers|)), j)
  {
    hide TotalCost, CoverageOf, Aggregated, Owed, ShownAll;
  }

  /** An in-progress answer about the job, stored whatever its status is by then. */
  predicate Reopens(e: Step, j: nat)
  {
    e.UpdateJob? && e.update.job == j && !IsTerminal(e.update.status)
  }

  lemma EndedIsFinal(s: State, j: nat)
    requires Inv(s) && JobEnded(s, j)
    ensures j in s.db.jobs && IsFinal(s.db, s.db.jobs[j].accounting)
  {
    hide FinalizersOk, HistoryOk, Balanced, IsTerminal;
  }

  /** With its accounting final, a job is only touched by answers that are stored for it. */
  lemma OnlyAnswersTouch(s: State, e: Step, j: nat)
    requires Inv(s) && j in s.db.jobs && IsFinal(s.db, s.db.jobs[j].accounting) && !e.UpdateJob?
    ensures j in Next(s, e).db.jobs && Next(s, e).db.jobs[j] == s.db.jobs[j]
  {
    hide Balanced, HistoryOk, DbOk, IsTerminal, SnapshotOf, Owed, WinnerOk, Entry, Loaded;
    if Enabled(s, e) && e.Commit? {
      assert ReadyOk(s.db, s.finalizers[e.i]);
    }
  }

  lemma EndStep(s: State, e: Step, j: nat)
    requires Inv(s) && JobEnded(s, j)
    ensures j in Next(s, e).db.jobs && Next(s, e).db.jobs[j].accounting == s.db.jobs[j].accounting
    ensures JobEnded(Next(s, e), j) <==> !Reopens(e, j)
  {
    hide Inv, IsTerminal;
    EndedIsFinal(s, j);
    if !e.UpdateJob? {
      OnlyAnswersTouch(s, e, j);
      hide Next;
    }
  }

  /**
   * A job that shows its end still shows it after a run if and only if the run stored no in-progress
   * answer about it. Such an answer is stored whatever the status is, and nothing later in the run
   * makes up for it: the end is lost for good.
   */
  lemma {:induction false} EndStaysIff(s: State, steps: seq<Step>, j: nat)
    requires Inv(s) && JobEnded(s, j)
    ensures var t := Exec(s, steps);
            && Inv(t) && j in t.db.jobs && t.db.jobs[j].accounting == s.db.jobs[j].accounting
            && (JobEnded(t, j) <==> forall e | e in steps :: !Reopens(e, j))
  {
    hide Inv, Next, JobEnded, Reopens;
    EndedIsFinal(s, j);
    if steps != [] {
      var front, last := steps[..|steps| - 1], steps[|steps| - 1];
      assert steps == front + [last];
      EndStaysIff(s, front, j);
      FinalIsForever(s, front, s.db.jobs[j].accounting);
      NextKeeps(Exec(s, front), last);
      if JobEnded(Exec(s, front), j) {
        EndStep(Exec(s, front), last, j);
      } else {
        StaysOpen(Exec(s, front), last, j);
      }
    }
  }

  /**
   * The status of a job is not monotone: from every state in which it shows an end, one delayed
   * in-progress update takes it back to running, for good.
   */
  lemma StatusCanRegress(s: State, j: nat, running: string, steps: seq<Step>)
    requires Inv(s) && JobEnded(s, j) && !IsTerminal(running)
    ensures !JobEnded(Exec(Next(s, UpdateJob(JobUpdate(j, running))), steps), j)
  {
    hide Inv, IsTerminal;
    var e := UpdateJob(JobUpdate(j, running));
    EndedIsFinal(s, j);
    NextKeeps(s, e);
    EndStep(s, e, j);
    StepKeepsFinal(s, e, s.db.jobs[j].accounting);
    StaysOpenForever(Next(s, e), steps, j);
  }

  // ---------- Saving before the end ----------

  /**
   * Saving a record before its end never makes anything final. While the request is open, it stores what
   * was known, with pending attempts left pending; once it is final, it changes nothing.
   */
  lemma SavingStaysProvisional(s: State, c: Record)
    requires c.state == Final ==> IsFinal(s.db, c.id)
    ensures var t := Next(s, SavePending(c));
            && t == s.(db := s.db.(records := t.db.records))
            && (forall id | id != c.id :: (id in t.db.records <==> id in s.db.records)
                                          && (id in s.db.records ==> t.db.records[id] == s.db.records[id]))
            && (IsFinal(s.db, c.id) ==> t == s)
            && (!IsFinal(s.db, c.id) ==>
                  && c.id in t.db.records && t.db.records[c.id].state == Provisional
                  && var r := t.db.records[c.id].record;
                     && r.id == c.id && r.key == c.key && r.state == Provisional && |r.attempts| == |c.attempts|
                     && forall i | 0 <= i < |c.attempts| ::
                          && r.attempts[i].status == c.attempts[i].status
                          && r.attempts[i].usage == c.attempts[i].usage
                          && r.attempts[i].native == c.attempts[i].native)
  {
    hide Aggregated, TotalCost, CoverageOf;
  }
}
