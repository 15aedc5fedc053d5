/**
 * What the protocol charges: in every reachable state, logged spend and pool totals denote the exact
 * sums of the amounts of the records that won.
 */
module Charges {
  import opened Deployments
  import opened Accounting
  import opened AccountingStore
  import opened Finalization
  import Decimals

  // ---------- One amount ----------

  /** An amount as a rational number of units; what is no amount counts for nothing. */
  ghost function ChargeOf(amount: Option<string>): real
  {
    if amount.Some? && Decimals.Representable(amount.value)
    then Decimals.Denoted(amount.value) * Decimals.ONE as real else 0.0
  }

  /** What is owed for an amount is exactly what the amount denotes. */
  lemma OwedIsExact(amount: Option<string>)
    ensures Owed(amount) as real == ChargeOf(amount)
  {
    if amount.Some? && Decimals.Representable(amount.value) {
      Decimals.RateUnits(amount.value);
    }
  }

  // ---------- Keys ----------

  /** What the record of a request charges to a key. */
  ghost function RecordCharge(db: Db, id: nat, k: int): real
  {
    if id in db.records && db.records[id].record.key == Some(k)
    then ChargeOf(db.records[id].record.cost.amount) else 0.0
  }

  ghost function WonCharges(db: Db, wins: seq<nat>, k: int): real
  {
    if wins == [] then 0.0 else WonCharges(db, wins[..|wins| - 1], k) + RecordCharge(db, wins[|wins| - 1], k)
  }

  lemma {:induction false} SameCharges(d: Db, e: Db, wins: seq<nat>, k: int)
    requires forall id | id in wins :: id in d.records && id in e.records && e.records[id] == d.records[id]
    ensures WonCharges(e, wins, k) == WonCharges(d, wins, k)
  {
    hide ChargeOf;
    if wins != [] {
      var front, last := wins[..|wins| - 1], wins[|wins| - 1];
      assert wins == front + [last];
      SameCharges(d, e, front, k);
    }
  }

  lemma WonSnoc(db: Db, wins: seq<nat>, id: nat, k: int)
    ensures WonCharges(db, wins + [id], k) == WonCharges(db, wins, k) + RecordCharge(db, id, k)
  {
    assert (wins + [id])[..|wins|] == wins;
  }

  /** What a step adds to the log is the charge of the record that won in it, if one did. */
  lemma StepLogs(s: State, e: Step, k: int)
    requires Inv(s)
    ensures var t := Next(s, e);
            if t.wins == s.wins then Logged(t.db.rows, k) == Logged(s.db.rows, k)
            else
              && t.wins == s.wins + [t.wins[|t.wins| - 1]]
              && Logged(t.db.rows, k) as real ==
                 Logged(s.db.rows, k) as real + RecordCharge(t.db, t.wins[|t.wins| - 1], k)
  {
    hide Inv, Owed, SnapshotOf, ChargeOf, Loaded, JobFits, Logged;
    if Enabled(s, e) {
      if e.Flush? {
        LoggedSnoc(s.db.rows, FlushRow(e.key, s.spend[e.key]), k);
      } else if e.Commit? && !IsFinal(s.db, s.finalizers[e.i].record.id) {
        CommitLogs(s, e.i, k);
      }
    }
  }

  lemma CommitLogs(s: State, i: nat, k: int)
    requires Inv(s) && Enabled(s, Commit(i)) && !IsFinal(s.db, s.finalizers[i].record.id)
    ensures var t := Next(s, Commit(i)); var id := s.finalizers[i].record.id;
            && t.wins == s.wins + [id] && t.wins != s.wins
            && Logged(t.db.rows, k) as real == Logged(s.db.rows, k) as real + RecordCharge(t.db, id, k)
  {
    var r := s.finalizers[i].record;
    assert ReadyOk(s.db, s.finalizers[i]);
    hide Inv, Owed, ChargeOf, JobFits, Logged;
    OwedIsExact(r.cost.amount);
    EntryCounts(r, s.db.rows, k);
    assert |s.wins + [r.id]| == |s.wins| + 1;
  }

  /**
   * Whatever the interleaving, faults and crashes: the logged spend of a key is what it was at the
   * start plus the exact sum of the amounts of the key's records that won since.
   */
  lemma {:induction false} LoggedIsWon(db: Db, steps: seq<Step>, k: int)
    requires DbOk(db)
    ensures var s := Exec(Started(db), steps);
            Logged(s.db.rows, k) as real == Logged(db.rows, k) as real + WonCharges(s.db, s.wins, k)
  {
    hide Next, Inv, Logged, DbOk;
    if steps != [] {
      var s, e := Exec(Started(db), steps[..|steps| - 1]), steps[|steps| - 1];
      var t := Next(s, e);
      LoggedIsWon(db, steps[..|steps| - 1], k);
      RunsKeepInv(db, steps[..|steps| - 1]);
      StepLogs(s, e, k);
      WonStay(s, e);
      SameCharges(s.db, t.db, s.wins, k);
      if t.wins != s.wins {
        WonSnoc(t.db, s.wins, t.wins[|t.wins| - 1], k);
      }
    }
  }

  lemma WonStay(s: State, e: Step)
    requires Inv(s)
    ensures forall id | id in s.wins ::
              id in s.db.records && id in Next(s, e).db.records && Next(s, e).db.records[id] == s.db.records[id]
  {
    hide Next, DbOk, FinalizersOk, Balanced;
    forall id | id in s.wins
      ensures id in s.db.records && id in Next(s, e).db.records && Next(s, e).db.records[id] == s.db.records[id]
    {
      StepKeepsFinal(s, e, id);
    }
  }

  // ---------- Pools ----------

  /** A credit of a pool: which attempt of a stored record it is for, and what it is worth to a pool. */
  predicate Stored(db: Db, c: (nat, nat))
  {
    c.0 in db.records && c.1 < |db.records[c.0].record.attempts|
  }

  function Worth(db: Db, c: (nat, nat), pool: string): nat
  {
    if Stored(db, c) && db.records[c.0].record.attempts[c.1].pool == pool
    then Owed(db.records[c.0].record.attempts[c.1].cost.amount) else 0
  }

  function Credited(db: Db, live: seq<(nat, nat)>, pool: string): nat
  {
    if live == [] then 0 else Credited(db, live[..|live| - 1], pool) + Worth(db, live[|live| - 1], pool)
  }

  lemma CreditedSnoc(db: Db, live: seq<(nat, nat)>, c: (nat, nat), pool: string)
    ensures Credited(db, live + [c], pool) == Credited(db, live, pool) + Worth(db, c, pool)
  {
    assert (live + [c])[..|live|] == live;
  }

  lemma {:induction false} SameCredits(d: Db, e: Db, live: seq<(nat, nat)>, pool: string)
    requires forall c | c in live :: c.0 in d.records && c.0 in e.records && e.records[c.0] == d.records[c.0]
    ensures Credited(e, live, pool) == Credited(d, live, pool)
  {
    hide Owed;
    if live != [] {
      var front, last := live[..|live| - 1], live[|live| - 1];
      assert live == front + [last];
      SameCredits(d, e, front, pool);
    }
  }

  /** An attempt that earns its pool something. */
  predicate Earns(r: Record, n: nat)
  {
    n < |r.attempts| && Owed(r.attempts[n].cost.amount) > 0 && r.attempts[n].pool != ""
  }

  /** A winner has credited exactly the attempts it has passed that earn something. */
  ghost predicate PaidSoFar(live: seq<(nat, nat)>, f: Finalizer)
  {
    f.Winner? ==> forall n: nat :: (f.record.id, n) in live <==> n < f.poolsPaid && Earns(f.record, n)
  }

  ghost predicate PoolsOk(s: State)
  {
    && Distinct(s.live)
    && (forall c | c in s.live :: c.0 in s.wins && Stored(s.db, c))
    && (forall f | f in s.finalizers :: PaidSoFar(s.live, f))
    && (forall pool :: PoolSpend(s.pools, pool) == Credited(s.db, s.live, pool))
  }

  lemma DatabaseKeepsPools(s: State, t: State)
    requires Inv(s) && PoolsOk(s) && t.live == s.live && t.pools == s.pools && s.wins <= t.wins
    requires forall id | id in s.wins ::
               id in s.db.records && id in t.db.records && t.db.records[id] == s.db.records[id]
    requires forall f | f in t.finalizers && f.Winner? :: f in s.finalizers
    ensures PoolsOk(t)
  {
    hide Inv, Credited, PaidSoFar, Distinct, PoolSpend;
    forall c | c in t.live ensures c.0 in t.wins && Stored(t.db, c) {
      assert c.0 in s.wins && Stored(s.db, c);
    }
    forall f | f in t.finalizers ensures PaidSoFar(t.live, f) {
      NoWinner(t.live, f);
    }
    forall pool ensures PoolSpend(t.pools, pool) == Credited(t.db, t.live, pool) {
      SameCredits(s.db, t.db, s.live, pool);
    }
  }

  lemma NoWinner(live: seq<(nat, nat)>, f: Finalizer)
    ensures !f.Winner? ==> PaidSoFar(live, f)
  {
  }

  lemma WinKeepsPools(s: State, i: nat)
    requires Inv(s) && PoolsOk(s) && Enabled(s, Commit(i)) && !IsFinal(s.db, s.finalizers[i].record.id)
    ensures PoolsOk(Next(s, Commit(i)))
  {
    hide Owed, Credited, Distinct, PoolSpend, Earns, DbOk, Balanced, FinalizersOk;
    var t := Next(s, Commit(i));
    var r := s.finalizers[i].record;
    WonStay(s, Commit(i));
    assert forall n: nat :: (r.id, n) !in s.live by {
      assert forall c | c in s.live :: IsFinal(s.db, c.0);
    }
    forall f | f in t.finalizers ensures PaidSoFar(t.live, f) {
      assert f == Winner(r, false, 0) || f in s.finalizers;
    }
    forall pool ensures PoolSpend(t.pools, pool) == Credited(t.db, t.live, pool) {
      SameCredits(s.db, t.db, s.live, pool);
    }
  }

  lemma PayKeyKeepsPools(s: State, i: nat)
    requires Inv(s) && PoolsOk(s) && Enabled(s, PayKey(i))
    ensures PoolsOk(Next(s, PayKey(i)))
  {
    hide Owed, Credited, Distinct, PoolSpend, Earns, Inv;
    var t := Next(s, PayKey(i));
    forall f | f in t.finalizers ensures PaidSoFar(t.live, f) {
      assert f in s.finalizers || f == s.finalizers[i].(keyPaid := true);
      assert PaidSoFar(s.live, s.finalizers[i]);
    }
  }

  lemma PayPoolKeepsPools(s: State, i: nat)
    requires Inv(s) && PoolsOk(s) && Enabled(s, PayPool(i))
    ensures PoolsOk(Next(s, PayPool(i)))
  {
    hide Owed, Credited, Distinct, DbOk, Balanced, HistoryOk, FinalizersOk;
    var f, t := s.finalizers[i], Next(s, PayPool(i));
    var n := f.poolsPaid;
    WinnerAt(s, i);
    assert PaidSoFar(s.live, f);
    forall g | g in t.finalizers ensures PaidSoFar(t.live, g) {
      var j :| 0 <= j < |t.finalizers| && t.finalizers[j] == g;
      if j == i {
        assert g == f.(poolsPaid := n + 1);
        forall k: nat ensures (f.record.id, k) in t.live <==> k < n + 1 && Earns(f.record, k) {
          assert (f.record.id, k) in s.live <==> k < n && Earns(f.record, k);
        }
      } else {
        assert g == s.finalizers[j] && !Rivals(g, f) && PaidSoFar(s.live, g);
      }
    }
    if Earns(f.record, n) {
      DistinctSnoc(s.live, (f.record.id, n));
      forall pool ensures PoolSpend(t.pools, pool) == Credited(t.db, t.live, pool) {
        CreditedSnoc(s.db, s.live, (f.record.id, n), pool);
      }
    }
  }

  lemma NextKeepsPools(s: State, e: Step)
    requires Inv(s) && PoolsOk(s)
    ensures PoolsOk(Next(s, e))
  {
    hide Inv, PoolsOk, Put, Updated, SnapshotOf, Owed, JobFits, Loaded;
    if Enabled(s, e) {
      WonStay(s, e);
      match e
      case Commit(i) =>
        if IsFinal(s.db, s.finalizers[i].record.id) {
          DatabaseKeepsPools(s, Next(s, e));
        } else {
          WinKeepsPools(s, i);
        }
      case PayKey(i) => PayKeyKeepsPools(s, i);
      case PayPool(i) => PayPoolKeepsPools(s, i);
      case Restart => RestartKeepsPools(s);
      case _ => DatabaseKeepsPools(s, Next(s, e));
    }
  }

  lemma RestartKeepsPools(s: State)
    ensures PoolsOk(Next(s, Restart))
  {
  }

  lemma {:induction false} RunsKeepPools(db: Db, steps: seq<Step>)
    requires DbOk(db)
    ensures PoolsOk(Exec(Started(db), steps))
  {
    hide Next, DbOk, Inv, PoolsOk;
    if steps == [] {
      StartsEmpty(db);
    } else {
      RunsKeepPools(db, steps[..|steps| - 1]);
      RunsKeepInv(db, steps[..|steps| - 1]);
      NextKeepsPools(Exec(Started(db), steps[..|steps| - 1]), steps[|steps| - 1]);
    }
  }

  lemma StartsEmpty(db: Db)
    ensures PoolsOk(Started(db))
  {
  }

  /** What a credit is worth to a pool, as a rational number of units. */
  ghost function AttemptCharge(db: Db, c: (nat, nat), pool: string): real
  {
    if Stored(db, c) && db.records[c.0].record.attempts[c.1].pool == pool
    then ChargeOf(db.records[c.0].record.attempts[c.1].cost.amount) else 0.0
  }

  ghost function CreditedCharges(db: Db, live: seq<(nat, nat)>, pool: string): real
  {
    if live == [] then 0.0
    else CreditedCharges(db, live[..|live| - 1], pool) + AttemptCharge(db, live[|live| - 1], pool)
  }

  lemma {:induction false} CreditedIsExact(db: Db, live: seq<(nat, nat)>, pool: string)
    ensures Credited(db, live, pool) as real == CreditedCharges(db, live, pool)
  {
    hide Owed, ChargeOf;
    if live != [] {
      var last := live[|live| - 1];
      CreditedIsExact(db, live[..|live| - 1], pool);
      if Stored(db, last) {
        OwedIsExact(db.records[last.0].record.attempts[last.1].cost.amount);
      }
    }
  }

  /**
   * In every reachable state a pool's total is the exact sum of the amounts of the attempts that were
   * credited to it since the last restart: each at most once, each of a record that won, and of every
   * winner that is still at work exactly the attempts it has passed.
   */
  lemma PoolsAreConserved(db: Db, steps: seq<Step>, pool: string)
    requires DbOk(db)
    ensures var s := Exec(Started(db), steps);
            && PoolSpend(s.pools, pool) as real == CreditedCharges(s.db, s.live, pool)
            && Distinct(s.live)
            && (forall c | c in s.live :: c.0 in s.wins && Stored(s.db, c))
            && (forall f | f in s.finalizers :: PaidSoFar(s.live, f))
  {
    hide Exec, Credited, CreditedCharges, PaidSoFar, Distinct;
    RunsKeepPools(db, steps);
    var s := Exec(Started(db), steps);
    CreditedIsExact(s.db, s.live, pool);
  }
}
