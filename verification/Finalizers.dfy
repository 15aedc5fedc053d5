/**
 * The code that finalizes: `callAccounting.complete` and `creditAccounting` of
 * `internal/api/handler/accounting.go`, and `FinishAccounting` of `internal/responses/accounting.go`.
 * Each is shown to perform steps of the protocol in `Finalization`, and nothing else.
 */
module Finalizers {
  import opened Deployments
  import Capacity
  import opened Tokens
  import opened Accounting
  import opened AccountingStore
  import opened SpendTotals
  import opened Finalization

  /** The daily totals of the pools, without the change of day. */
  class PoolBudgetManager {
    var totals: map<string, nat>

    constructor ()
      ensures totals == map[]
    {
      totals := map[];
    }

    method Credit(pool: string, cost: nat)
      modifies this
      ensures totals == old(totals)[pool := PoolSpend(old(totals), pool) + cost]
    {
      if pool !in totals {
        totals := totals[pool := 0];
      }
      totals := totals[pool := totals[pool] + cost];
    }
  }

  function PayPools(n: nat): seq<Step>
  {
    if n == 0 then [] else PayPools(n - 1) + [PayPool(0)]
  }

  /** The steps of a finalizer that acts alone from `Finish` on: it credits only if it won. */
  function Steps(c: Record, job: Option<JobUpdate>, won: bool): seq<Step>
  {
    if won then [Finish(c, job), Commit(0)] + ([PayKey(0)] + PayPools(|c.attempts|))
    else [Finish(c, job), Commit(0)]
  }

  /** The database and the totals of two states agree. */
  ghost predicate Agree(s: State, db: Db, spend: map<int, nat>, pools: map<string, nat>)
  {
    s.db == db && s.spend == spend && s.pools == pools
  }

  lemma ExecSnoc(s: State, steps: seq<Step>, e: Step)
    ensures Exec(s, steps + [e]) == Next(Exec(s, steps), e)
  {
    hide Next;
    assert (steps + [e])[..|steps|] == steps;
  }

  lemma {:induction false} ExecJoin(s: State, front: seq<Step>, back: seq<Step>)
    ensures Exec(s, front + back) == Exec(Exec(s, front), back)
  {
    hide Next;
    if back == [] {
      assert front + back == front;
    } else {
      var most, last := back[..|back| - 1], back[|back| - 1];
      ExecJoin(s, front, most);
      assert front + back == front + most + [last];
      ExecSnoc(s, front + most, last);
    }
  }

  /** The state of a winner that has credited its key and `n` pools. */
  ghost predicate Paying(s: State, rec: Record, n: nat)
  {
    s.finalizers == [Winner(rec, true, n)]
  }

  lemma PayKeyStep(s: State, rec: Record)
    requires s.finalizers == [Winner(rec, false, 0)]
    ensures var t := Exec(s, [PayKey(0)]);
            && Paying(t, rec, 0) && t.db == s.db && t.pools == s.pools
            && t.spend == if rec.key.Some? && Owed(rec.cost.amount) > 0
                          then s.spend[rec.key.value := Spend(s.spend, rec.key.value) + Owed(rec.cost.amount)]
                          else s.spend
  {
    hide Owed;
    assert [PayKey(0)] == [] + [PayKey(0)];
    ExecSnoc(s, [], PayKey(0));
  }

  lemma PayPoolStep(s: State, rec: Record, n: nat)
    requires Paying(s, rec, n) && n < |rec.attempts|
    ensures var t := Next(s, PayPool(0)); var a := rec.attempts[n];
            && Paying(t, rec, n + 1) && t.db == s.db && t.spend == s.spend
            && t.pools == if Owed(a.cost.amount) > 0 && a.pool != ""
                          then s.pools[a.pool := PoolSpend(s.pools, a.pool) + Owed(a.cost.amount)]
                          else s.pools
  {
    hide Owed;
  }

  /** Credits the key with the whole cost and the pool of every attempt with that attempt's cost. */
  method CreditAccounting(rec: Record, spend: SpendAccumulator, budget: PoolBudgetManager, ghost s: State)
    requires s.finalizers == [Winner(rec, false, 0)] && s.spend == spend.totals && s.pools == budget.totals
    modifies spend, budget
    ensures Agree(Exec(s, [PayKey(0)] + PayPools(|rec.attempts|)), s.db, spend.totals, budget.totals)
  {
    hide Owed, Next, Exec, PoolSpend, Spend;
    PayKeyStep(s, rec);
    if rec.key.Some? {
      var v := Owed(rec.cost.amount);
      if v > 0 {
        spend.Credit(rec.key.value, v);
      }
    }
    ghost var done := [PayKey(0)];
    assert done == [PayKey(0)] + PayPools(0);
    for n := 0 to |rec.attempts|
      invariant done == [PayKey(0)] + PayPools(n)
      invariant Paying(Exec(s, done), rec, n)
      invariant Agree(Exec(s, done), s.db, spend.totals, budget.totals)
    {
      var a := rec.attempts[n];
      PayPoolStep(Exec(s, done), rec, n);
      ExecSnoc(s, done, PayPool(0));
      var v := Owed(a.cost.amount);
      if v > 0 && a.pool != "" {
        budget.Credit(a.pool, v);
      }
      done := done + [PayPool(0)];
      assert done == [PayKey(0)] + PayPools(n + 1);
    }
  }

  ghost function World(db: Db, spend: map<int, nat>, pools: map<string, nat>): State
  {
    State(db, spend, pools, [], [], [], [], [])
  }

  lemma FinishAndCommit(s: State, c: Record, job: Option<JobUpdate>)
    requires s.finalizers == [] && JobFits(s.db, c, job)
    ensures var rec := SnapshotOf(c, true); var t := Exec(s, [Finish(c, job), Commit(0)]);
            && t.db == Finalized(s.db, rec, Entry(rec), job)
            && t.spend == s.spend && t.pools == s.pools
            && (!IsFinal(s.db, c.id) ==> t.finalizers == [Winner(rec, false, 0)])
  {
    hide Next, SnapshotOf, Entry, Finalized;
    ExecTwo(s, Finish(c, job), Commit(0));
    SnapshotKeepsShape(c);
    Finishing(s, c, job);
    Committing(Next(s, Finish(c, job)), SnapshotOf(c, true), job);
  }

  lemma Finishing(s: State, c: Record, job: Option<JobUpdate>)
    requires s.finalizers == [] && JobFits(s.db, c, job)
    ensures Next(s, Finish(c, job)) == s.(finalizers := [Ready(SnapshotOf(c, true), job)])
  {
    hide SnapshotOf;
  }

  lemma Committing(s: State, r: Record, job: Option<JobUpdate>)
    requires s.finalizers == [Ready(r, job)]
    ensures var t := Next(s, Commit(0));
            && t.db == Finalized(s.db, r, Entry(r), job) && t.spend == s.spend && t.pools == s.pools
            && (!IsFinal(s.db, r.id) ==> t.finalizers == [Winner(r, false, 0)])
  {
    hide Entry, Finalized;
    LosingChangesNothing(s.db, r, job);
  }

  lemma LosingChangesNothing(db: Db, r: Record, job: Option<JobUpdate>)
    ensures IsFinal(db, r.id) ==> Finalized(db, r, Entry(r), job) == db
  {
    hide Owed;
  }

  /** Whether finalizing this record breaks off at the fault. */
  predicate Stops(db: Db, c: Record, job: Option<JobUpdate>, fault: Fault)
  {
    Breaks(db, c.id, c.attempts != [], job.Some?, fault)
  }

  /** What finalizing this record does: nothing if it breaks off, and the credits only if it wins. */
  function Settlement(db: Db, c: Record, job: Option<JobUpdate>, fault: Fault): seq<Step>
  {
    if Stops(db, c, job, fault) then [] else Steps(c, job, !IsFinal(db, c.id))
  }

  /**
   * Takes the final snapshot, commits it, and credits the budgets if that won: exactly the
   * finalizer's protocol steps, or, if the transaction breaks off, none at all.
   */
  method Settle(c: Collector, store: Store, spend: SpendAccumulator, budget: PoolBudgetManager,
                job: Option<JobUpdate>, fault: Fault)
    returns (rec: Record, won: bool, failed: bool)
    requires JobFits(store.Contents(), c.record, job)
    modifies store, spend, budget
    ensures rec == SnapshotOf(c.record, true)
    ensures failed == Stops(old(store.Contents()), c.record, job, fault)
    ensures won == (!failed && !IsFinal(old(store.Contents()), c.record.id))
    ensures Agree(Exec(World(old(store.Contents()), old(spend.totals), old(budget.totals)),
                       Settlement(old(store.Contents()), c.record, job, fault)),
                  store.Contents(), spend.totals, budget.totals)
  {
    hide SnapshotOf, Owed, Exec, Finalized, Entry, JobFits;
    ghost var s := World(store.Contents(), spend.totals, budget.totals);
    ghost var start := [Finish(c.record, job), Commit(0)];
    rec := c.Snapshot(true);
    SnapshotKeepsShape(c.record);
    FinishAndCommit(s, c.record, job);
    ExecNone(s);
    EntryExists(rec);
    won, failed := store.FinalizeAccounting(rec, Entry(rec), job, fault);
    if won {
      CreditAccounting(rec, spend, budget, Exec(s, start));
      ExecJoin(s, start, [PayKey(0)] + PayPools(|rec.attempts|));
    }
  }

  lemma EntryExists(r: Record)
    ensures Entry(r).Some? <==> r.attempts != []
  {
    hide Owed;
  }

  lemma SnapshotKeepsShape(c: Record)
    ensures SnapshotOf(c, true).id == c.id && |SnapshotOf(c, true).attempts| == |c.attempts|
  {
    hide TotalCost, CoverageOf, Aggregated;
  }

  /** A background job: observe the last usage, close the attempt, and settle together with the job. */
  method FinishAccounting(c: Collector, store: Store, spend: SpendAccumulator, budget: PoolBudgetManager,
                          usage: Option<Body>, status: string, id: nat, fault: Fault)
    returns (failed: bool)
    requires c.Valid() && c.current >= 0 && (usage.Some? ==> Decoded(usage.value))
    requires id in store.jobs && store.jobs[id].accounting == c.record.id && IsTerminal(status)
    modifies c, store, spend, budget
    ensures var seen := if usage.Some? then Applied(old(c.record), DecodedUsage(old(c.current), usage.value))
                        else old(c.record);
            c.record == Applied(seen, End(old(c.current), status != "completed"))
    ensures failed == Stops(old(store.Contents()), c.record, Some(JobUpdate(id, status)), fault)
    ensures Agree(Exec(World(old(store.Contents()), old(spend.totals), old(budget.totals)),
                       Settlement(old(store.Contents()), c.record, Some(JobUpdate(id, status)), fault)),
                  store.Contents(), spend.totals, budget.totals)
  {
    hide SnapshotOf, Exec, Finalized, Steps, IsTerminal, WithBody;
    if usage.Some? {
      c.ObserveUsageOf(c.current, usage.value);
    }
    c.EndAttempt(c.current, status != "completed");
    var rec, won, broke := Settle(c, store, spend, budget, Some(JobUpdate(id, status)), fault);
    failed := broke;
  }

  // ---------- Polling and cancelling ----------

  /** Stored records are filed under their id, and only final rows hold final records. */
  ghost predicate Kept(db: Db)
  {
    forall id | id in db.records :: KeptRow(id, db.records[id])
  }

  ghost predicate KeptRow(id: nat, row: AccountingRow)
  {
    && row.record.id == id
    && (row.record.state == Final ==> row.state == Final)
    && (forall a | a in row.record.attempts :: a.usage.source.FromHeader? ==> a.usage.total.Some?)
  }

  /** What one upstream call shows about the attempt that goes on: headers, bodies and usage. */
  predicate Shows(events: seq<Event>, attempt: int)
  {
    forall e | e in events :: Possible(e) && !e.Begin? && !e.End? && e.attempt == attempt
  }

  lemma RunNext(r: Record, events: seq<Event>, n: nat)
    requires n < |events|
    ensures Run(r, events[..n + 1]) == Applied(Run(r, events[..n]), events[n])
  {
    hide Applied;
    assert events[..n + 1][..n] == events[..n];
  }

  method ObserveAll(c: Collector, events: seq<Event>)
    requires c.Valid() && c.current >= 0 && Shows(events, c.current)
    modifies c
    ensures c.Valid() && c.current == old(c.current) && c.record == Run(old(c.record), events)
  {
    hide Applied, Run, WithBody, WithHeaders, WithRawBody;
    assert Run(c.record, events[..0]) == c.record by {
      NothingHappened(c.record);
    }
    for n := 0 to |events|
      invariant c.Valid() && c.current == old(c.current) && c.record == Run(old(c.record), events[..n])
    {
      var e := events[n];
      RunNext(old(c.record), events, n);
      ghost var before := c.record;
      match e {
        case Headers(i, cost, total) => c.ObserveHeaders(i, cost, total);
        case RawBody(i, native, usage) => c.ObserveJSON(i, native, usage);
        case DecodedUsage(i, body) => c.ObserveUsageOf(i, body);
      }
      SameNumber(before, e);
    }
    assert events[..|events|] == events;
  }

  lemma NothingHappened(r: Record)
    ensures Run(r, []) == r
  {
  }

  lemma SameNumber(r: Record, e: Event)
    requires !e.Begin?
    ensures |Applied(r, e).attempts| == |r.attempts| && Applied(r, e).id == r.id && Applied(r, e).state == r.state
  {
  }

  lemma {:induction false} RunKeepsIdentity(r: Record, events: seq<Event>)
    ensures Run(r, events).id == r.id && Run(r, events).state == r.state
  {
    hide AttemptStep;
    if events != [] {
      RunKeepsIdentity(r, events[..|events| - 1]);
    }
  }

  /** How the upstream answers a poll or a cancellation. */
  datatype Answer = NoAnswer | Status(status: string, usage: Option<Body>)

  /** The collector for a job's record, if there is a record with an attempt to go on with. */
  method ResumeAccounting(store: Store, id: nat) returns (c: Collector?)
    requires Kept(store.Contents())
    ensures c == null <==> id !in store.records || store.records[id].record.attempts == []
    ensures c != null ==>
              && fresh(c) && c.Valid() && c.current >= 0 && c.record == Restored(store.records[id].record)
              && c.record.id == id && (c.record.state == Final ==> IsFinal(store.Contents(), id))
  {
    c := null;
    var found := store.GetAccounting(id);
    if found.None? || found.value.attempts == [] {
      return;
    }
    assert KeptRow(id, store.records[id]);
    c := new Collector.Restore(found.value);
  }

  /** Which of the statements about a running job fail. */
  datatype Trouble = Trouble(saving: bool, updating: bool, finalizing: Fault)

  /** What an answer about a job does to the database and the totals, as protocol steps. */
  function AnswerSteps(db: Db, c: Record, id: nat, answer: Answer, trouble: Trouble): seq<Finalization.Step>
  {
    match answer
    case NoAnswer => []
    case Status(status, usage) =>
      if IsTerminal(status) then Settlement(db, c, Some(JobUpdate(id, status)), trouble.finalizing)
      else if trouble.saving then []
      else if trouble.updating then [SavePending(c)]
      else [SavePending(c), UpdateJob(JobUpdate(id, status))]
  }

  /** There is a record with an attempt that the job's calls can go on with. */
  predicate Resumable(db: Db, id: nat)
  {
    id in db.records && db.records[id].record.attempts != []
  }

  /** The record that a terminal answer finalizes: its usage observed and its attempt closed. */
  function Closing(c: Record, answer: Answer): Record
  {
    var last := |c.attempts| - 1;
    if answer.NoAnswer? || last < 0 || !IsTerminal(answer.status) then c
    else
      var seen := if answer.usage.Some? then Applied(c, DecodedUsage(last, answer.usage.value)) else c;
      Applied(seen, End(last, answer.status != "completed"))
  }

  /** The record after one answered call about a job, and the steps that the answer leads to. */
  ghost predicate Answered(db: Db, id: nat, events: seq<Event>, answer: Answer, trouble: Trouble, c: Record,
                           steps: seq<Finalization.Step>)
    requires id in db.jobs
  {
    var acct := db.jobs[id].accounting;
    if !Resumable(db, acct) then steps == []
    else
      && c == Closing(Run(Restored(db.records[acct].record), events), answer)
      && steps == AnswerSteps(db, c, id, answer, trouble)
  }

  /**
   * One answer about a background job, to the polling worker or to a cancellation. An in-progress
   * answer saves the evidence and then overwrites the job's status, a terminal one finalizes. Both
   * are protocol steps, and nothing else happens to the database and the totals.
   */
  method HandleAnswer(store: Store, spend: SpendAccumulator, budget: PoolBudgetManager, id: nat, events: seq<Event>,
                      answer: Answer, trouble: Trouble)
    returns (ghost c: Record, ghost steps: seq<Finalization.Step>)
    requires id in store.jobs && Kept(store.Contents())
    requires store.jobs[id].accounting in store.records ==>
               Shows(events, |store.records[store.jobs[id].accounting].record.attempts| - 1)
    requires answer.Status? && answer.usage.Some? ==> Decoded(answer.usage.value)
    modifies store, spend, budget
    ensures Answered(old(store.Contents()), id, events, answer, trouble, c, steps)
    ensures Agree(Exec(World(old(store.Contents()), old(spend.totals), old(budget.totals)), steps),
                  store.Contents(), spend.totals, budget.totals)
  {
    hide Exec, Run, Restored, Settlement, SnapshotOf, IsTerminal, Finalized, Applied, Stops;
    ghost var s := World(store.Contents(), spend.totals, budget.totals);
    ExecNone(s);
    steps := [];
    var acct := store.jobs[id].accounting;
    var collector := ResumeAccounting(store, acct);
    c := NewRecord(acct, None);
    if collector == null {
      return;
    }
    RunKeepsIdentity(collector.record, events);
    RestoredKeepsNumber(store.records[acct].record);
    ObserveAll(collector, events);
    c := collector.record;
    if answer.NoAnswer? {
      return;
    }
    if !IsTerminal(answer.status) {
      if trouble.saving {
        return;
      }
      var provisional := collector.Snapshot(false);
      store.PutAccounting(provisional);
      if trouble.updating {
        steps := [SavePending(c)];
        ExecOne(s, SavePending(c));
        return;
      }
      store.UpdateResponsesJob(JobUpdate(id, answer.status));
      steps := [SavePending(c), UpdateJob(JobUpdate(id, answer.status))];
      ExecTwo(s, SavePending(c), UpdateJob(JobUpdate(id, answer.status)));
      return;
    }
    ghost var before := collector.record;
    var failed := FinishAccounting(collector, store, spend, budget, answer.usage, answer.status, id,
                                   trouble.finalizing);
    ClosingIs(before, answer, collector.record);
    c := collector.record;
    steps := AnswerSteps(old(store.Contents()), c, id, answer, trouble);
  }

  lemma ExecOne(s: State, e: Finalization.Step)
    ensures Exec(s, [e]) == Next(s, e)
  {
    hide Next;
    assert [e][..0] == [];
  }

  /** A cancellation asks the upstream only about a job that does not show an end yet. */
  method CancelResponseJob(store: Store, spend: SpendAccumulator, budget: PoolBudgetManager, id: nat,
                           events: seq<Event>, answer: Answer, trouble: Trouble)
    returns (asked: bool, ghost c: Record, ghost steps: seq<Finalization.Step>)
    requires id in store.jobs && Kept(store.Contents())
    requires store.jobs[id].accounting in store.records ==>
               Shows(events, |store.records[store.jobs[id].accounting].record.attempts| - 1)
    requires answer.Status? && answer.usage.Some? ==> Decoded(answer.usage.value)
    modifies store, spend, budget
    ensures asked == !IsTerminal(old(store.jobs)[id].status)
    ensures if asked then Answered(old(store.Contents()), id, events, answer, trouble, c, steps) else steps == []
    ensures Agree(Exec(World(old(store.Contents()), old(spend.totals), old(budget.totals)), steps),
                  store.Contents(), spend.totals, budget.totals)
  {
    hide Exec, IsTerminal, Answered;
    asked, steps := !IsTerminal(store.jobs[id].status), [];
    c := NewRecord(store.jobs[id].accounting, None);
    if !asked {
      ExecNone(World(store.Contents(), spend.totals, budget.totals));
      return;
    }
    c, steps := HandleAnswer(store, spend, budget, id, events, answer, trouble);
  }

  lemma RestoredKeepsNumber(r: Record)
    ensures |Restored(r).attempts| == |r.attempts| && Restored(r).id == r.id
  {
  }

  lemma ClosingIs(before: Record, answer: Answer, after: Record)
    requires answer.Status? && IsTerminal(answer.status) && before.attempts != []
    requires var seen := if answer.usage.Some?
                         then Applied(before, DecodedUsage(|before.attempts| - 1, answer.usage.value)) else before;
             after == Applied(seen, End(|before.attempts| - 1, answer.status != "completed"))
    ensures after == Closing(before, answer) && after.id == before.id
  {
    hide AttemptStep, IsTerminal;
  }

  // ---------- Synchronous and streaming calls ----------

  /** The token count that a quota is settled with: the last attempt's total, if it is known. */
  function QuotaUsage(r: Record): Option<Capacity.TokenUsage>
  {
    if r.attempts == [] then None
    else
      var total := r.attempts[|r.attempts| - 1].usage.total;
      if total.None? then None else Some(Capacity.TokenUsage(total.value, 0, 0))
  }

  method CurrentUsage(c: Collector) returns (usage: Option<Capacity.TokenUsage>)
    requires c.Valid()
    ensures usage == QuotaUsage(c.record)
  {
    if c.current < 0 {
      return None;
    }
    var u := c.record.attempts[c.current].usage;
    if u.total.None? {
      return None;
    }
    usage := Some(Capacity.TokenUsage(u.total.value, 0, 0));
  }

  /** The accounting of one synchronous or streaming call. */
  class CallAccounting {
    const collector: Collector
    var done: bool
    var record: Option<Record>
    var reconcile: Capacity.CapacityReservation?

    constructor (c: Collector)
      ensures collector == c && !done && record.None? && reconcile == null
    {
      collector, done, record, reconcile := c, false, None, null;
    }

    ghost predicate Valid()
      reads this
    {
      done ==> record.Some?
    }

    /** A streaming call takes over the settlement of its quota. */
    method DeferReconcile(reservation: Capacity.CapacityReservation?)
      modifies this
      ensures reconcile == reservation && done == old(done) && record == old(record)
    {
      reconcile := reservation;
    }

    ghost function Quota(): set<object>
      reads this
    {
      if reconcile == null then {} else {reconcile, reconcile.limiter}
    }

    /**
     * The first call closes the attempt, settles the quota it took over with the tokens of the
     * attempt, and finalizes; every later call only repeats the record.
     */
    method Complete(store: Store, spend: SpendAccumulator, budget: PoolBudgetManager, failedCall: bool, fault: Fault)
      returns (rec: Record)
      requires Valid() && collector.Valid()
      modifies this, collector, store, spend, budget, Quota()
      ensures Valid() && done && record == Some(rec) && reconcile == old(reconcile)
      ensures old(done) ==>
                && Some(rec) == old(record) && collector.record == old(collector.record)
                && Agree(World(old(store.Contents()), old(spend.totals), old(budget.totals)),
                         store.Contents(), spend.totals, budget.totals)
      ensures !old(done) ==>
                && collector.record == (if old(collector.current) < 0 then old(collector.record)
                                        else Applied(old(collector.record), End(old(collector.current), failedCall)))
                && rec == SnapshotOf(collector.record, true)
                && Agree(Exec(World(old(store.Contents()), old(spend.totals), old(budget.totals)),
                              Settlement(old(store.Contents()), collector.record, None, fault)),
                         store.Contents(), spend.totals, budget.totals)
      ensures reconcile != null ==>
                && reconcile.finished == (old(reconcile.finished) || !old(done))
                && reconcile.limiter.windows ==
                   if old(done) || old(reconcile.finished) then old(reconcile.limiter.windows)
                   else
                     Capacity.Finished(old(reconcile.limiter.windows), reconcile.ticket, QuotaUsage(collector.record))
    {
      hide SnapshotOf, Exec, Finalized, Steps, Settlement, Stops, Capacity.Finished;
      if done {
        return record.value;
      }
      done := true;
      if collector.current >= 0 {
        collector.EndAttempt(collector.current, failedCall);
      }
      var settled := collector.Snapshot(true);
      record := Some(settled);
      if reconcile != null {
        var usage := CurrentUsage(collector);
        reconcile.Finish(usage);
      }
      var won, failed;
      rec, won, failed := Settle(collector, store, spend, budget, None, fault);
      SnapshotKeepsShape(collector.record);
    }
  }
}
