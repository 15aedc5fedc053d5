/**
 * What finalizing a record and answering about a job come to, said of the tables and the totals
 * instead of the steps that do it.
 */
module Settlements {
  import opened Deployments
  import opened Tokens
  import opened Accounting
  import opened AccountingStore
  import opened Finalization
  import opened Finalizers

  // ---------- Credits ----------

  /** What the attempts of a pool cost together. */
  function PoolShare(attempts: seq<Attempt>, pool: string): nat
  {
    if attempts == [] then 0
    else
      var last := attempts[|attempts| - 1];
      PoolShare(attempts[..|attempts| - 1], pool) + if last.pool == pool then Owed(last.cost.amount) else 0
  }

  /** The totals after crediting a record: its key and its attempts' pools have grown, and nothing else. */
  ghost predicate Credited(spend: map<int, nat>, pools: map<string, nat>, rec: Record, attempts: seq<Attempt>,
                           newSpend: map<int, nat>, newPools: map<string, nat>)
  {
    && (forall k :: Spend(newSpend, k) == Spend(spend, k) + if rec.key == Some(k) then Owed(rec.cost.amount) else 0)
    && (forall p :: PoolSpend(newPools, p) == PoolSpend(pools, p) + if p == "" then 0 else PoolShare(attempts, p))
  }

  lemma KeyIsCredited(s: State, rec: Record)
    requires s.finalizers == [Winner(rec, false, 0)]
    ensures var t := Exec(s, [PayKey(0)] + PayPools(0));
            && Paying(t, rec, 0) && t.db == s.db && Credited(s.spend, s.pools, rec, [], t.spend, t.pools)
  {
    hide Owed, Exec;
    PayKeyStep(s, rec);
    assert [PayKey(0)] + PayPools(0) == [PayKey(0)];
  }

  lemma {:induction false} PoolsAreCredited(s: State, rec: Record, n: nat)
    requires s.finalizers == [Winner(rec, false, 0)] && n <= |rec.attempts|
    ensures var t := Exec(s, [PayKey(0)] + PayPools(n));
            && Paying(t, rec, n) && t.db == s.db && Credited(s.spend, s.pools, rec, rec.attempts[..n], t.spend, t.pools)
  {
    hide Owed, Exec, Next;
    if n == 0 {
      KeyIsCredited(s, rec);
    } else {
      PoolsAreCredited(s, rec, n - 1);
      var before := Exec(s, [PayKey(0)] + PayPools(n - 1));
      PayPoolStep(before, rec, n - 1);
      assert [PayKey(0)] + PayPools(n) == [PayKey(0)] + PayPools(n - 1) + [PayPool(0)];
      ExecSnoc(s, [PayKey(0)] + PayPools(n - 1), PayPool(0));
      assert rec.attempts[..n][..n - 1] == rec.attempts[..n - 1];
    }
  }

  // ---------- Finalizing ----------

  /** The faults that break off the transaction: those at a statement that it comes to. */
  predicate BreaksOff(db: Db, c: Record, job: Option<JobUpdate>, fault: Fault)
  {
    && fault != NoFault
    && (fault == AtLog ==> !IsFinal(db, c.id) && c.attempts != [])
    && (fault == AtJob ==> !IsFinal(db, c.id) && job.Some?)
    && (fault == AtCommit ==> !IsFinal(db, c.id))
  }

  lemma StopsIff(db: Db, c: Record, job: Option<JobUpdate>, fault: Fault)
    ensures Stops(db, c, job, fault) <==> BreaksOff(db, c, job, fault)
  {
  }

  /** A database in which this record has just become final, with its usage row and its job's status. */
  ghost predicate Closed(db: Db, after: Db, rec: Record, job: Option<JobUpdate>)
  {
    && rec.id in after.records && after.records[rec.id] == AccountingRow(Final, rec)
    && (forall id | id != rec.id :: (id in after.records <==> id in db.records)
                                    && (id in db.records ==> after.records[id] == db.records[id]))
    && after.rows == db.rows + (if rec.attempts == [] then []
                                else [UsageRow(rec.id, rec.key, Owed(rec.cost.amount))])
    && (forall j :: j in after.jobs <==> j in db.jobs)
    && (forall j | j in db.jobs ::
          after.jobs[j] == if job.Some? && job.value.job == j then Job(db.jobs[j].accounting, job.value.status)
                           else db.jobs[j])
  }

  /**
   * Finalizing a record that is not final closes it with its final snapshot, and credits its key with
   * the whole amount and each pool with what its attempts cost. If the transaction breaks off, or the
   * record is final already, nothing changes.
   */
  lemma SettlementMeans(db: Db, spend: map<int, nat>, pools: map<string, nat>, c: Record, job: Option<JobUpdate>,
                        fault: Fault)
    requires JobFits(db, c, job)
    ensures var t := Exec(World(db, spend, pools), Settlement(db, c, job, fault)); var rec := SnapshotOf(c, true);
            if BreaksOff(db, c, job, fault) || IsFinal(db, c.id) then Agree(t, db, spend, pools)
            else
              && Closed(db, t.db, rec, job)
              && Credited(spend, pools, rec, rec.attempts, t.spend, t.pools)
  {
    hide Owed, Exec, Next, SnapshotOf, Credited, Stops, BreaksOff, JobFits;
    var s := World(db, spend, pools);
    var rec := SnapshotOf(c, true);
    StopsIff(db, c, job, fault);
    SnapshotKeepsShape(c);
    if BreaksOff(db, c, job, fault) {
      ExecNone(s);
    } else {
      FinishAndCommit(s, c, job);
      if IsFinal(db, c.id) {
        LosingChangesNothing(db, rec, job);
      } else {
        var start := [Finish(c, job), Commit(0)];
        ExecJoin(s, start, [PayKey(0)] + PayPools(|c.attempts|));
        PoolsAreCredited(Exec(s, start), rec, |rec.attempts|);
        assert rec.attempts[..|rec.attempts|] == rec.attempts;
      }
    }
  }

  // ---------- Answers ----------

  /** The record before and after a terminal answer: its last attempt has heard it and is closed. */
  lemma ClosingMeans(c: Record, status: string, usage: Option<Body>)
    requires c.attempts != [] && IsTerminal(status)
    ensures var last := |c.attempts| - 1; var r := Closing(c, Status(status, usage));
            && r == c.(attempts := r.attempts) && |r.attempts| == |c.attempts|
            && (forall i | 0 <= i < last :: r.attempts[i] == c.attempts[i])
            && r.attempts[last].status == (if status == "completed" then Completed else Failed)
            && r.attempts[last].usage ==
               (if usage.Some? then Observed(c.attempts[last].provider, c.attempts[last].usage, usage.value).0
                else c.attempts[last].usage)
  {
    hide Observed, IsTerminal, WarnedAll, Merged;
  }

  /**
   * Without an answer nothing changes. An in-progress answer, unless saving fails, stores the evidence
   * as provisional, and then, unless updating fails, the job's status; no usage row is written and
   * nothing is credited. What a terminal answer does is the settlement with the job's status.
   */
  lemma AnswerMeans(db: Db, spend: map<int, nat>, pools: map<string, nat>, c: Record, id: nat, answer: Answer,
                    trouble: Trouble)
    requires id in db.jobs && (c.state == Final ==> IsFinal(db, c.id))
    ensures var t := Exec(World(db, spend, pools), AnswerSteps(db, c, id, answer, trouble));
            match answer
            case NoAnswer => Agree(t, db, spend, pools)
            case Status(status, _) =>
              if status in {"completed", "failed", "cancelled", "incomplete"} then
                t == Exec(World(db, spend, pools),
                          Settlement(db, c, Some(JobUpdate(id, status)), trouble.finalizing))
              else
                && t.spend == spend && t.pools == pools && t.db.rows == db.rows
                && t.db.records == (if trouble.saving then db.records
                                    else Next(World(db, spend, pools), SavePending(c)).db.records)
                && t.db.jobs == (if trouble.saving || trouble.updating then db.jobs
                                 else db.jobs[id := Job(db.jobs[id].accounting, status)])
  {
    hide Settlement, SnapshotOf, Exec;
    var s := World(db, spend, pools);
    ExecNone(s);
    if answer.Status? && !IsTerminal(answer.status) {
      SavingStaysProvisional(s, c);
      ExecOne(s, SavePending(c));
      ExecTwo(s, SavePending(c), UpdateJob(JobUpdate(id, answer.status)));
    }
  }

  // ---------- Quotas ----------

  /** A call's quota is settled with the total of its last attempt and no other count, if that is known. */
  lemma QuotaIsTheTotal(r: Record)
    ensures var usage := QuotaUsage(r);
            && (usage.Some? <==> r.attempts != [] && r.attempts[|r.attempts| - 1].usage.total.Some?)
            && (usage.Some? ==>
                  && Some(usage.value.total) == r.attempts[|r.attempts| - 1].usage.total
                  && usage.value.prompt + usage.value.completion == 0)
  {
  }
}
