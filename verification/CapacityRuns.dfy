/**
 * The quota windows as a ledger: what they hold after any interleaving of admissions and
 * settlements, and how many admissions any minute can see.
 */
module CapacityRuns {
  import opened Deployments
  import opened Capacity

  datatype Status = Open | Kept | Late | Paid(actual: int)

  /** An admission with its time and what became of it. */
  datatype Entry = Entry(ticket: Ticket, at: int, status: Status)

  datatype Ledger = Ledger(windows: Windows, entries: seq<Entry>)

  datatype Step = Reserve(d: Deployment, tokens: int, now: int) | Finish(i: nat, usage: Option<TokenUsage>)

  const EMPTY := Ledger(map[], [])

  function StatusAfter(ws: Windows, t: Ticket, usage: Option<TokenUsage>): Status
  {
    if usage.None? || t.tokens == 0 then Kept
    else if Settles(ws, t, usage) then Paid(Actual(usage.value))
    else Late
  }

  /** A reservation can be finished any number of times; only the first counts. */
  function Next(l: Ledger, s: Step): Ledger
  {
    match s
    case Reserve(d, tokens, now) =>
      var (ws, admission) := Reserved(l.windows, d, tokens, now);
      Ledger(ws, if admission.Admitted? then l.entries + [Entry(admission.ticket, now, Open)] else l.entries)
    case Finish(i, usage) =>
      if i >= |l.entries| || !l.entries[i].status.Open? then l
      else
        var e := l.entries[i];
        Ledger(Finished(l.windows, e.ticket, usage),
               l.entries[i := e.(status := StatusAfter(l.windows, e.ticket, usage))])
  }

  function Run(steps: seq<Step>): Ledger
  {
    if steps == [] then EMPTY else Next(Run(steps[..|steps| - 1]), steps[|steps| - 1])
  }

  // ---------- Sums over the entries ----------

  predicate Counts(e: Entry, key: QuotaKey, start: int)
  {
    e.ticket.key == key && e.ticket.start == start
  }

  /** What an admission weighs: its actual tokens once settled, and its estimate otherwise. */
  function Weight(e: Entry): int
  {
    if e.status.Paid? then e.status.actual else e.ticket.tokens
  }

  /** How far actual tokens went beyond what was set aside. */
  function Excess(e: Entry): nat
  {
    if e.status.Paid? && e.status.actual > e.ticket.tokens then e.status.actual - e.ticket.tokens else 0
  }

  function Requests(es: seq<Entry>, key: QuotaKey, start: int): nat
  {
    if es == [] then 0
    else Requests(es[..|es| - 1], key, start) + if Counts(es[|es| - 1], key, start) then 1 else 0
  }

  function Tokens(es: seq<Entry>, key: QuotaKey, start: int): int
  {
    if es == [] then 0
    else Tokens(es[..|es| - 1], key, start) + if Counts(es[|es| - 1], key, start) then Weight(es[|es| - 1]) else 0
  }

  function Overrun(es: seq<Entry>, key: QuotaKey, start: int): nat
  {
    if es == [] then 0
    else Overrun(es[..|es| - 1], key, start) + if Counts(es[|es| - 1], key, start) then Excess(es[|es| - 1]) else 0
  }

  lemma SumsSnoc(es: seq<Entry>, e: Entry, key: QuotaKey, start: int)
    ensures Requests(es + [e], key, start) == Requests(es, key, start) + if Counts(e, key, start) then 1 else 0
    ensures Tokens(es + [e], key, start) == Tokens(es, key, start) + if Counts(e, key, start) then Weight(e) else 0
    ensures Overrun(es + [e], key, start) == Overrun(es, key, start) + if Counts(e, key, start) then Excess(e) else 0
  {
    assert (es + [e])[..|es|] == es;
  }

  lemma {:induction false} SumsUpdate(es: seq<Entry>, i: nat, e: Entry, key: QuotaKey, start: int)
    requires i < |es| && e.ticket == es[i].ticket
    ensures Requests(es[i := e], key, start) == Requests(es, key, start)
    ensures Tokens(es[i := e], key, start) ==
            Tokens(es, key, start) + if Counts(e, key, start) then Weight(e) - Weight(es[i]) else 0
    ensures Overrun(es[i := e], key, start) ==
            Overrun(es, key, start) + if Counts(e, key, start) then Excess(e) - Excess(es[i]) else 0
  {
    hide Weight, Excess;
    var n := |es| - 1;
    if i == n {
      assert es[i := e][..n] == es[..n];
    } else {
      assert es[i := e][..n] == es[..n][i := e];
      SumsUpdate(es[..n], i, e, key, start);
    }
  }

  lemma {:induction false} NoneCount(es: seq<Entry>, key: QuotaKey, start: int)
    requires forall e | e in es :: !Counts(e, key, start)
    ensures Requests(es, key, start) == 0 && Tokens(es, key, start) == 0 && Overrun(es, key, start) == 0
  {
    if es != [] {
      assert es[|es| - 1] in es;
      NoneCount(es[..|es| - 1], key, start);
    }
  }

  // ---------- The ledger invariant ----------

  /** Window starts of one key are the same or at least a minute apart. */
  predicate Apart(a: Ticket, b: Ticket)
  {
    a.key == b.key ==> a.start == b.start || a.start + MINUTE <= b.start || b.start + MINUTE <= a.start
  }

  ghost predicate Spaced(es: seq<Entry>)
  {
    forall e, f | e in es && f in es :: Apart(e.ticket, f.ticket)
  }

  /** An admission is in its key's window, or in one that ended at least a minute earlier. */
  predicate Placed(ws: Windows, t: Ticket)
  {
    t.key in ws && (t.start == ws[t.key].start || t.start + MINUTE <= ws[t.key].start)
  }

  ghost predicate Accounted(l: Ledger, key: QuotaKey)
  {
    key in l.windows ==>
      && l.windows[key].requests == Requests(l.entries, key, l.windows[key].start)
      && l.windows[key].tokens == Tokens(l.entries, key, l.windows[key].start)
  }

  ghost predicate Balanced(l: Ledger)
  {
    && Spaced(l.entries)
    && (forall e | e in l.entries :: Placed(l.windows, e.ticket))
    && (forall key :: Accounted(l, key))
  }

  /** Looking at a key's window may replace it, but leaves the ledger balanced. */
  lemma OpeningKeeps(l: Ledger, key: QuotaKey, now: int)
    requires Balanced(l)
    ensures var t := l.(windows := l.windows[key := Current(l.windows, key, now)]); Balanced(t)
    ensures forall e | e in l.entries && e.ticket.key == key ::
              Apart(e.ticket, Ticket(key, Current(l.windows, key, now).start, 0))
  {
    var w := Current(l.windows, key, now);
    var t := l.(windows := l.windows[key := w]);
    if key !in l.windows || now - l.windows[key].start >= MINUTE {
      forall e | e in l.entries ensures Placed(t.windows, e.ticket) && !Counts(e, key, now) {
        assert Placed(l.windows, e.ticket);
      }
      NoneCount(l.entries, key, now);
    }
    forall k ensures Accounted(t, k) {
      assert Accounted(l, k);
    }
    forall e | e in l.entries && e.ticket.key == key ensures Apart(e.ticket, Ticket(key, w.start, 0)) {
      assert Placed(t.windows, e.ticket);
    }
  }

  lemma AdmittingKeeps(l: Ledger, key: QuotaKey, charge: int, now: int)
    requires Balanced(l) && key in l.windows
    requires forall e | e in l.entries && e.ticket.key == key :: Apart(e.ticket, Ticket(key, l.windows[key].start, 0))
    ensures var w := l.windows[key];
            Balanced(Ledger(l.windows[key := Window(w.start, w.requests + 1, w.tokens + charge)],
                            l.entries + [Entry(Ticket(key, w.start, charge), now, Open)]))
  {
    hide Requests, Tokens;
    var w := l.windows[key];
    var e := Entry(Ticket(key, w.start, charge), now, Open);
    var t := Ledger(l.windows[key := Window(w.start, w.requests + 1, w.tokens + charge)], l.entries + [e]);
    forall f | f in t.entries ensures Placed(t.windows, f.ticket) {
      assert f == e || Placed(l.windows, f.ticket);
    }
    forall f, g | f in t.entries && g in t.entries ensures Apart(f.ticket, g.ticket) {
      assert f == e || f in l.entries;
      assert g == e || g in l.entries;
    }
    forall k ensures Accounted(t, k) {
      assert Accounted(l, k);
      if k in t.windows {
        SumsSnoc(l.entries, e, k, t.windows[k].start);
      }
    }
  }

  lemma FinishingKeeps(l: Ledger, i: nat, usage: Option<TokenUsage>)
    requires Balanced(l) && i < |l.entries| && l.entries[i].status.Open?
    ensures Balanced(Next(l, Finish(i, usage)))
  {
    hide Requests, Tokens;
    var t := Next(l, Finish(i, usage));
    var e := t.entries[i];
    assert Placed(l.windows, l.entries[i].ticket);
    forall f | f in t.entries ensures Placed(t.windows, f.ticket) {
      var j :| 0 <= j < |t.entries| && t.entries[j] == f;
      assert l.entries[j] in l.entries && l.entries[j].ticket == f.ticket;
      assert Placed(l.windows, f.ticket);
    }
    forall f, g | f in t.entries && g in t.entries ensures Apart(f.ticket, g.ticket) {
      var j :| 0 <= j < |t.entries| && t.entries[j] == f;
      var k :| 0 <= k < |t.entries| && t.entries[k] == g;
      assert l.entries[j] in l.entries && l.entries[k] in l.entries;
      assert Apart(l.entries[j].ticket, l.entries[k].ticket);
    }
    forall k ensures Accounted(t, k) {
      assert Accounted(l, k);
      if k in l.windows {
        SumsUpdate(l.entries, i, e, k, l.windows[k].start);
      }
    }
  }

  lemma NextKeeps(l: Ledger, s: Step)
    requires Balanced(l)
    ensures Balanced(Next(l, s))
  {
    hide Balanced;
    match s
    case Reserve(d, tokens, now) =>
      if d.rpm > 0 || d.tpm > 0 {
        var key := KeyOf(d);
        var ready := l.(windows := l.windows[key := Current(l.windows, key, now)]);
        OpeningKeeps(l, key, now);
        if !OverLimit(d, Current(l.windows, key, now), AtLeastOne(tokens)) {
          var charge := if d.tpm > 0 then AtLeastOne(tokens) else 0;
          AdmittingKeeps(ready, key, charge, now);
          Overwritten(l.windows, key, Current(l.windows, key, now), Next(l, s).windows[key]);
        }
      } else {
        assert Next(l, s) == l;
      }
    case Finish(i, usage) =>
      if i < |l.entries| && l.entries[i].status.Open? {
        FinishingKeeps(l, i, usage);
      }
  }

  lemma Overwritten(ws: Windows, key: QuotaKey, v: Window, w: Window)
    ensures ws[key := v][key := w] == ws[key := w]
  {
  }

  /**
   * After any interleaving of reservations and settlements, with any clock, the current window of
   * every key counts exactly its admissions, and its tokens are the actual tokens of the settled
   * ones plus the estimates of all others.
   */
  lemma {:induction false} LedgerIsBalanced(steps: seq<Step>)
    ensures Balanced(Run(steps))
  {
    hide Balanced, Next;
    if steps == [] {
      EmptyIsBalanced();
    } else {
      LedgerIsBalanced(steps[..|steps| - 1]);
      NextKeeps(Run(steps[..|steps| - 1]), steps[|steps| - 1]);
    }
  }

  lemma EmptyIsBalanced()
    ensures Balanced(EMPTY)
  {
  }

  /** A second finish changes nothing; nor does one whose window has been replaced, to the windows. */
  lemma LateFinishesChangeNothing(l: Ledger, i: nat, first: Option<TokenUsage>, second: Option<TokenUsage>)
    requires i < |l.entries|
    ensures Next(Next(l, Finish(i, first)), Finish(i, second)) == Next(l, Finish(i, first))
    ensures var t := l.entries[i].ticket;
            t.key in l.windows && l.windows[t.key].start != t.start ==> Next(l, Finish(i, first)).windows == l.windows
  {
  }

  // ---------- Limits ----------

  /** All deployments that share the key have this request limit. */
  predicate SameRpm(steps: seq<Step>, key: QuotaKey, rpm: int)
  {
    forall s | s in steps && s.Reserve? && KeyOf(s.d) == key :: s.d.rpm == rpm
  }

  predicate SameTpm(steps: seq<Step>, key: QuotaKey, tpm: int)
  {
    forall s | s in steps && s.Reserve? && KeyOf(s.d) == key :: s.d.tpm == tpm
  }

  /** No window, past or present, admits more requests than the limit. */
  lemma {:induction false} RequestsWithinLimit(steps: seq<Step>, key: QuotaKey, rpm: int, start: int)
    requires rpm > 0 && SameRpm(steps, key, rpm)
    ensures Requests(Run(steps).entries, key, start) <= rpm
  {
    hide Next, Requests;
    if steps == [] {
      NoneCount([], key, start);
    } else {
      var front, last := steps[..|steps| - 1], steps[|steps| - 1];
      assert last in steps && forall s | s in front :: s in steps;
      RequestsWithinLimit(front, key, rpm, start);
      LedgerIsBalanced(front);
      RequestStep(Run(front), last, key, rpm, start);
    }
  }

  lemma RequestStep(l: Ledger, s: Step, key: QuotaKey, rpm: int, start: int)
    requires Balanced(l) && rpm > 0 && Requests(l.entries, key, start) <= rpm
    requires s.Reserve? && KeyOf(s.d) == key ==> s.d.rpm == rpm
    ensures Requests(Next(l, s).entries, key, start) <= rpm
  {
    hide Requests;
    match s
    case Reserve(d, tokens, now) =>
      var admission := Reserved(l.windows, d, tokens, now).1;
      if admission.Admitted? {
        var e := Entry(admission.ticket, now, Open);
        SumsSnoc(l.entries, e, key, start);
        if Counts(e, key, start) {
          OpeningKeeps(l, key, now);
          assert Accounted(l.(windows := l.windows[key := Current(l.windows, key, now)]), key);
        }
      }
    case Finish(i, usage) =>
      if i < |l.entries| && l.entries[i].status.Open? {
        SumsUpdate(l.entries, i, Next(l, s).entries[i], key, start);
      }
  }

  /**
   * Tokens never exceed the limit by more than actual usage exceeded the estimates; in particular
   * they stay within it when estimates are upper bounds.
   */
  lemma {:induction false} TokensWithinLimit(steps: seq<Step>, key: QuotaKey, tpm: int)
    requires tpm > 0 && SameTpm(steps, key, tpm)
    ensures var l := Run(steps);
            key in l.windows ==> l.windows[key].tokens <= tpm + Overrun(l.entries, key, l.windows[key].start)
  {
    hide Next, Overrun;
    if steps != [] {
      var front, last := steps[..|steps| - 1], steps[|steps| - 1];
      assert last in steps && forall s | s in front :: s in steps;
      TokensWithinLimit(front, key, tpm);
      LedgerIsBalanced(front);
      TokenStep(Run(front), last, key, tpm);
    }
  }

  lemma TokenStep(l: Ledger, s: Step, key: QuotaKey, tpm: int)
    requires Balanced(l) && tpm > 0
    requires key in l.windows ==> l.windows[key].tokens <= tpm + Overrun(l.entries, key, l.windows[key].start)
    requires s.Reserve? && KeyOf(s.d) == key ==> s.d.tpm == tpm
    ensures var t := Next(l, s);
            key in t.windows ==> t.windows[key].tokens <= tpm + Overrun(t.entries, key, t.windows[key].start)
  {
    hide Overrun, Requests, Tokens;
    match s
    case Reserve(d, tokens, now) =>
      var admission := Reserved(l.windows, d, tokens, now).1;
      var t := Next(l, s);
      if admission.Admitted? && key in t.windows {
        SumsSnoc(l.entries, Entry(admission.ticket, now, Open), key, t.windows[key].start);
      }
    case Finish(i, usage) =>
      if i < |l.entries| && l.entries[i].status.Open? && key in l.windows {
        SumsUpdate(l.entries, i, Next(l, s).entries[i], key, l.windows[key].start);
      }
  }

  lemma {:induction false} NoExcess(es: seq<Entry>, key: QuotaKey, start: int)
    requires forall e | e in es :: e.status.Paid? ==> e.status.actual <= e.ticket.tokens
    ensures Overrun(es, key, start) == 0
  {
    if es != [] {
      assert es[|es| - 1] in es;
      NoExcess(es[..|es| - 1], key, start);
    }
  }

  /** With one limit per key and no usage above its reservation, a window stays within the limit. */
  lemma TokensNeverExceed(steps: seq<Step>, key: QuotaKey, tpm: int)
    requires tpm > 0 && SameTpm(steps, key, tpm)
    requires forall e | e in Run(steps).entries :: e.status.Paid? ==> e.status.actual <= e.ticket.tokens
    ensures key in Run(steps).windows ==> Run(steps).windows[key].tokens <= tpm
  {
    hide Run, Overrun;
    var l := Run(steps);
    TokensWithinLimit(steps, key, tpm);
    if key in l.windows {
      NoExcess(l.entries, key, l.windows[key].start);
    }
  }

  // ---------- Any sixty seconds ----------

  /** The clock does not run backwards. */
  ghost predicate Ticking(steps: seq<Step>)
  {
    forall i, j | 0 <= i < j < |steps| && steps[i].Reserve? && steps[j].Reserve? :: steps[i].now <= steps[j].now
  }

  predicate Timely(e: Entry)
  {
    e.ticket.start <= e.at < e.ticket.start + MINUTE
  }

  /** No window opened, and nothing was admitted, after the last reservation. */
  ghost predicate NotAfter(l: Ledger, now: int)
  {
    forall key | key in l.windows :: l.windows[key].start <= now
  }

  lemma TimelyStep(l: Ledger, s: Step)
    requires forall e | e in l.entries :: Timely(e)
    requires s.Reserve? ==> NotAfter(l, s.now)
    ensures forall e | e in Next(l, s).entries :: Timely(e)
    ensures s.Reserve? ==> NotAfter(Next(l, s), s.now)
    ensures s.Finish? ==> forall now | NotAfter(l, now) :: NotAfter(Next(l, s), now)
  {
    if s.Finish? {
      var t := Next(l, s);
      forall e | e in t.entries ensures Timely(e) {
        var j :| 0 <= j < |t.entries| && t.entries[j] == e;
        assert Timely(l.entries[j]);
      }
    }
  }

  lemma {:induction false} AdmissionsAreTimely(steps: seq<Step>, now: int)
    requires Ticking(steps)
    requires forall s | s in steps && s.Reserve? :: s.now <= now
    ensures forall e | e in Run(steps).entries :: Timely(e)
    ensures NotAfter(Run(steps), now)
  {
    hide Next, Timely;
    if steps != [] {
      var front, last := steps[..|steps| - 1], steps[|steps| - 1];
      assert last in steps && steps == front + [last];
      forall i, j | 0 <= i < j < |front| && front[i].Reserve? && front[j].Reserve?
        ensures front[i].now <= front[j].now
      {
        assert steps[i].now <= steps[j].now;
      }
      if last.Reserve? {
        forall s | s in front && s.Reserve? ensures s.now <= last.now {
          var i :| 0 <= i < |front| && front[i] == s;
          assert steps[i].now <= steps[|steps| - 1].now;
        }
        AdmissionsAreTimely(front, last.now);
      } else {
        AdmissionsAreTimely(front, now);
      }
      TimelyStep(Run(front), last);
      assert last.Reserve? ==> last.now <= now;
    }
  }

  /** The admissions of a key in the sixty seconds from `from` on, both ends included. */
  function AdmittedIn(es: seq<Entry>, key: QuotaKey, from: int): nat
  {
    if es == [] then 0
    else
      var e := es[|es| - 1];
      AdmittedIn(es[..|es| - 1], key, from) + if e.ticket.key == key && from <= e.at <= from + MINUTE then 1 else 0
  }

  predicate In(e: Entry, key: QuotaKey, from: int)
  {
    e.ticket.key == key && from <= e.at <= from + MINUTE
  }

  /** Two window starts cover everything admitted in the interval. */
  lemma {:induction false} TwoWindowsCover(es: seq<Entry>, key: QuotaKey, from: int, early: int, late: int)
    requires forall e | e in es && In(e, key, from) :: e.ticket.start == early || e.ticket.start == late
    ensures AdmittedIn(es, key, from) <= Requests(es, key, early) + Requests(es, key, late)
  {
    if es != [] {
      var front, last := es[..|es| - 1], es[|es| - 1];
      assert last in es && es == front + [last];
      TwoWindowsCover(front, key, from, early, late);
      assert In(last, key, from) ==> Counts(last, key, early) || Counts(last, key, late);
    }
  }

  /** The common start of the windows that opened before, or after, the interval began. */
  lemma CommonStart(es: seq<Entry>, key: QuotaKey, from: int, before: bool) returns (start: int)
    requires Spaced(es) && forall e | e in es :: Timely(e)
    ensures forall e | e in es && In(e, key, from) && (e.ticket.start <= from <==> before) :: e.ticket.start == start
  {
    if e :| e in es && In(e, key, from) && (e.ticket.start <= from <==> before) {
      start := e.ticket.start;
      forall f | f in es && In(f, key, from) && (f.ticket.start <= from <==> before) ensures f.ticket.start == start {
        assert Apart(e.ticket, f.ticket) && Timely(e) && Timely(f);
      }
    } else {
      start := 0;
    }
  }

  /**
   * With a clock that does not run backwards and one request limit per key, any sixty seconds see
   * at most twice the limit.
   */
  lemma SlidingWindowBound(steps: seq<Step>, key: QuotaKey, rpm: int, from: int, now: int)
    requires rpm > 0 && SameRpm(steps, key, rpm) && Ticking(steps)
    requires forall s | s in steps && s.Reserve? :: s.now <= now
    ensures AdmittedIn(Run(steps).entries, key, from) <= 2 * rpm
  {
    hide Run, Requests, AdmittedIn, Timely, Accounted, Placed;
    var es := Run(steps).entries;
    LedgerIsBalanced(steps);
    AdmissionsAreTimely(steps, now);
    var early := CommonStart(es, key, from, true);
    var late := CommonStart(es, key, from, false);
    TwoWindowsCover(es, key, from, early, late);
    RequestsWithinLimit(steps, key, rpm, early);
    RequestsWithinLimit(steps, key, rpm, late);
  }

  // ---------- The most that one minute can see ----------

  predicate Within(e: Entry, key: QuotaKey, from: int)
  {
    e.ticket.key == key && from <= e.at < from + MINUTE
  }

  /** The admissions of a key in the minute from `from` on, without its end. */
  function AdmittedWithin(es: seq<Entry>, key: QuotaKey, from: int): nat
  {
    if es == [] then 0
    else AdmittedWithin(es[..|es| - 1], key, from) + if Within(es[|es| - 1], key, from) then 1 else 0
  }

  /** Without a token limit, a window always opens with an admission. */
  function MinuteBound(d: Deployment): int
  {
    if d.tpm > 0 then 2 * d.rpm else 2 * d.rpm - 1
  }

  /** A run with a clock that does not run backwards and the deployment's limits for its key. */
  ghost predicate Regular(steps: seq<Step>, d: Deployment)
  {
    Ticking(steps) && SameRpm(steps, KeyOf(d), d.rpm) && SameTpm(steps, KeyOf(d), d.tpm)
  }

  lemma {:induction false} WithinIsIn(es: seq<Entry>, key: QuotaKey, from: int)
    ensures AdmittedWithin(es, key, from) <= AdmittedIn(es, key, from)
  {
    if es != [] {
      WithinIsIn(es[..|es| - 1], key, from);
    }
  }

  // Without a token limit, the admission that opens a window sits at its start.

  ghost predicate HasOpener(es: seq<Entry>, key: QuotaKey, start: int)
  {
    exists i | 0 <= i < |es| :: Counts(es[i], key, start) && es[i].at == start
  }

  ghost predicate Opened(l: Ledger, key: QuotaKey)
  {
    && (key in l.windows ==> HasOpener(l.entries, key, l.windows[key].start))
    && (forall e | e in l.entries && e.ticket.key == key :: HasOpener(l.entries, key, e.ticket.start))
  }

  lemma OpenerStays(es: seq<Entry>, e: Entry, key: QuotaKey, start: int)
    requires HasOpener(es, key, start) || (Counts(e, key, start) && e.at == start)
    ensures HasOpener(es + [e], key, start)
  {
    var all := es + [e];
    if HasOpener(es, key, start) {
      var i :| 0 <= i < |es| && Counts(es[i], key, start) && es[i].at == start;
      assert all[i] == es[i];
    } else {
      assert all[|es|] == e;
    }
  }

  lemma OpenerSettles(es: seq<Entry>, i: nat, e: Entry, key: QuotaKey, start: int)
    requires i < |es| && e.ticket == es[i].ticket && e.at == es[i].at && HasOpener(es, key, start)
    ensures HasOpener(es[i := e], key, start)
  {
    var j :| 0 <= j < |es| && Counts(es[j], key, start) && es[j].at == start;
    assert Counts(es[i := e][j], key, start);
  }

  lemma OpenedByAdmission(l: Ledger, e: Entry, ws: Windows, key: QuotaKey)
    requires Opened(l, key)
    requires key in ws ==>
               ws[key].start == e.ticket.start || (key in l.windows && ws[key].start == l.windows[key].start)
    requires e.ticket.key == key ==> e.at == e.ticket.start || HasOpener(l.entries, key, e.ticket.start)
    requires e.ticket.key != key ==> key in ws ==> key in l.windows && ws[key].start == l.windows[key].start
    ensures Opened(Ledger(ws, l.entries + [e]), key)
  {
    hide HasOpener;
    var es := l.entries + [e];
    forall f | f in es && f.ticket.key == key ensures HasOpener(es, key, f.ticket.start) {
      assert f == e || f in l.entries;
      OpenerStays(l.entries, e, key, f.ticket.start);
    }
    if key in ws {
      OpenerStays(l.entries, e, key, ws[key].start);
    }
  }

  lemma OpenedStep(l: Ledger, s: Step, key: QuotaKey, rpm: int, tpm: int)
    requires Opened(l, key) && rpm > 0 && tpm <= 0
    requires s.Reserve? && KeyOf(s.d) == key ==> s.d.rpm == rpm && s.d.tpm == tpm
    ensures Opened(Next(l, s), key)
  {
    hide HasOpener;
    match s
    case Reserve(d, tokens, now) =>
      var (ws, admission) := Reserved(l.windows, d, tokens, now);
      if admission.Admitted? {
        OpenedByAdmission(l, Entry(admission.ticket, now, Open), ws, key);
      }
    case Finish(i, usage) =>
      if i < |l.entries| && l.entries[i].status.Open? {
        var t := Next(l, s);
        var e := t.entries[i];
        forall f | f in t.entries && f.ticket.key == key ensures HasOpener(t.entries, key, f.ticket.start) {
          var j :| 0 <= j < |t.entries| && t.entries[j] == f;
          assert l.entries[j] in l.entries && l.entries[j].ticket == f.ticket;
          OpenerSettles(l.entries, i, e, key, f.ticket.start);
        }
        if key in l.windows {
          OpenerSettles(l.entries, i, e, key, l.windows[key].start);
        }
      }
  }

  lemma {:induction false} WindowsOpenWithAdmissions(steps: seq<Step>, key: QuotaKey, rpm: int, tpm: int)
    requires rpm > 0 && tpm <= 0 && SameRpm(steps, key, rpm) && SameTpm(steps, key, tpm)
    ensures Opened(Run(steps), key)
  {
    hide Next, HasOpener;
    if steps != [] {
      var front, last := steps[..|steps| - 1], steps[|steps| - 1];
      assert last in steps && forall s | s in front :: s in steps;
      WindowsOpenWithAdmissions(front, key, rpm, tpm);
      OpenedStep(Run(front), last, key, rpm, tpm);
    }
  }

  /** An admission of the early window outside the minute leaves one fewer for the minute. */
  lemma {:induction false} CoverWithSpare(es: seq<Entry>, key: QuotaKey, from: int, early: int, late: int, spare: nat)
    requires spare < |es| && Counts(es[spare], key, early) && !Within(es[spare], key, from)
    requires forall e | e in es && Within(e, key, from) :: e.ticket.start == early || e.ticket.start == late
    ensures AdmittedWithin(es, key, from) + 1 <= Requests(es, key, early) + Requests(es, key, late)
  {
    var n := |es| - 1;
    var front, last := es[..n], es[n];
    assert last in es && es == front + [last];
    if spare == n {
      WithinCovered(front, key, from, early, late);
    } else {
      CoverWithSpare(front, key, from, early, late, spare);
      assert Within(last, key, from) ==> Counts(last, key, early) || Counts(last, key, late);
    }
  }

  lemma {:induction false} WithinCovered(es: seq<Entry>, key: QuotaKey, from: int, early: int, late: int)
    requires forall e | e in es && Within(e, key, from) :: e.ticket.start == early || e.ticket.start == late
    ensures AdmittedWithin(es, key, from) <= Requests(es, key, early) + Requests(es, key, late)
  {
    if es != [] {
      var front, last := es[..|es| - 1], es[|es| - 1];
      assert last in es && es == front + [last];
      WithinCovered(front, key, from, early, late);
      assert Within(last, key, from) ==> Counts(last, key, early) || Counts(last, key, late);
    }
  }

  lemma {:induction false} WithinOne(es: seq<Entry>, key: QuotaKey, from: int, start: int)
    requires forall e | e in es && Within(e, key, from) :: e.ticket.start == start
    ensures AdmittedWithin(es, key, from) <= Requests(es, key, start)
  {
    if es != [] {
      var front, last := es[..|es| - 1], es[|es| - 1];
      assert last in es && es == front + [last];
      WithinOne(front, key, from, start);
      assert Within(last, key, from) ==> Counts(last, key, start);
    }
  }

  lemma OneFewer(es: seq<Entry>, key: QuotaKey, from: int, early: int, late: int, rpm: int)
    requires rpm > 0 && Spaced(es) && forall e | e in es :: Timely(e)
    requires forall e | e in es && e.ticket.key == key :: HasOpener(es, key, e.ticket.start)
    requires Requests(es, key, early) <= rpm && Requests(es, key, late) <= rpm
    requires forall e | e in es && In(e, key, from) && (e.ticket.start <= from <==> true) :: e.ticket.start == early
    requires forall e | e in es && In(e, key, from) && (e.ticket.start <= from <==> false) :: e.ticket.start == late
    ensures AdmittedWithin(es, key, from) <= 2 * rpm - 1
  {
    hide Requests, AdmittedWithin;
    if e :| e in es && Within(e, key, from) && e.ticket.start <= from {
      assert In(e, key, from) && e.ticket.start == early;
      var i :| 0 <= i < |es| && Counts(es[i], key, early) && es[i].at == early;
      if early < from {
        CoverWithSpare(es, key, from, early, late, i);
      } else {
        forall f | f in es && Within(f, key, from) ensures f.ticket.start == early {
          assert Apart(e.ticket, f.ticket) && Timely(f);
        }
        WithinOne(es, key, from, early);
      }
    } else {
      forall f | f in es && Within(f, key, from) ensures f.ticket.start == late {
        assert In(f, key, from);
      }
      WithinOne(es, key, from, late);
    }
  }

  /** No minute of a regular run sees more than the bound. */
  lemma MinuteBoundHolds(steps: seq<Step>, d: Deployment, from: int, now: int)
    requires d.rpm > 0 && Regular(steps, d)
    requires forall s | s in steps && s.Reserve? :: s.now <= now
    ensures AdmittedWithin(Run(steps).entries, KeyOf(d), from) <= MinuteBound(d)
  {
    hide Run, Requests, AdmittedIn, AdmittedWithin, Timely, Accounted, Placed, HasOpener, KeyOf;
    var es, key := Run(steps).entries, KeyOf(d);
    if d.tpm > 0 {
      SlidingWindowBound(steps, key, d.rpm, from, now);
      WithinIsIn(es, key, from);
    } else {
      LedgerIsBalanced(steps);
      AdmissionsAreTimely(steps, now);
      WindowsOpenWithAdmissions(steps, key, d.rpm, d.tpm);
      var early := CommonStart(es, key, from, true);
      var late := CommonStart(es, key, from, false);
      RequestsWithinLimit(steps, key, d.rpm, early);
      RequestsWithinLimit(steps, key, d.rpm, late);
      OneFewer(es, key, from, early, late, d.rpm);
    }
  }

  // Runs that reach the bound.

  /** `n` more admissions at time `t`, each settled with no tokens at once. */
  function Fill(steps: seq<Step>, d: Deployment, t: int, n: nat): seq<Step>
  {
    if n == 0 then steps
    else
      var before := Fill(steps, d, t, n - 1);
      before + [Reserve(d, 1, t)] + [Finish(|Run(before).entries|, Some(NO_TOKENS))]
  }

  lemma RunSnoc(steps: seq<Step>, s: Step)
    ensures Run(steps + [s]) == Next(Run(steps), s)
  {
    hide Next;
    assert (steps + [s])[..|steps|] == steps;
  }

  lemma AdmitOne(l: Ledger, d: Deployment, t: int)
    requires d.rpm > 0
    requires var w := Current(l.windows, KeyOf(d), t); w.tokens == 0 && w.requests < d.rpm && t - w.start < MINUTE
    ensures var key := KeyOf(d);
            var w := Current(l.windows, key, t);
            var after := Next(Next(l, Reserve(d, 1, t)), Finish(|l.entries|, Some(NO_TOKENS)));
            && key in after.windows && after.windows[key] == Window(w.start, w.requests + 1, 0)
            && |after.entries| == |l.entries| + 1 && after.entries[..|l.entries|] == l.entries
            && after.entries[|l.entries|].ticket.key == key && after.entries[|l.entries|].at == t
  {
    hide KeyOf;
    var key := KeyOf(d);
    var w := Current(l.windows, key, t);
    var charge := if d.tpm > 0 then 1 else 0;
    var mid := Next(l, Reserve(d, 1, t));
    assert mid.windows[key] == Window(w.start, w.requests + 1, charge);
    assert mid.entries == l.entries + [Entry(Ticket(key, w.start, charge), t, Open)];
  }

  lemma {:induction false} FillRuns(steps: seq<Step>, d: Deployment, t: int, n: nat, from: int)
    requires d.rpm > 0 && from <= t < from + MINUTE
    requires var w := Current(Run(steps).windows, KeyOf(d), t);
             w.tokens == 0 && w.requests + n <= d.rpm && t - w.start < MINUTE
    ensures var key := KeyOf(d); var l := Run(Fill(steps, d, t, n));
            var w := Current(Run(steps).windows, key, t);
            && AdmittedWithin(l.entries, key, from) == AdmittedWithin(Run(steps).entries, key, from) + n
            && (n > 0 ==> key in l.windows && l.windows[key] == Window(w.start, w.requests + n, 0))
  {
    hide KeyOf, Run, Next;
    if n > 0 {
      FillRuns(steps, d, t, n - 1, from);
      var before := Fill(steps, d, t, n - 1);
      var l := Run(before);
      AdmitOne(l, d, t);
      RunSnoc(before, Reserve(d, 1, t));
      RunSnoc(before + [Reserve(d, 1, t)], Finish(|l.entries|, Some(NO_TOKENS)));
      assert Within(Run(Fill(steps, d, t, n)).entries[|l.entries|], KeyOf(d), from);
    }
  }

  /** Only this deployment reserves, in order, and not after `t`. */
  ghost predicate Orderly(steps: seq<Step>, d: Deployment, t: int)
  {
    && Ticking(steps)
    && (forall s | s in steps && s.Reserve? :: s.d == d && s.now <= t)
  }

  lemma OrderlySnoc(steps: seq<Step>, d: Deployment, t: int, s: Step)
    requires Orderly(steps, d, t) && (s.Reserve? ==> s.d == d && s.now == t)
    ensures Orderly(steps + [s], d, t)
  {
    var all := steps + [s];
    forall i, j | 0 <= i < j < |all| && all[i].Reserve? && all[j].Reserve? ensures all[i].now <= all[j].now {
      assert all[i] == steps[i] && steps[i] in steps;
      assert j < |steps| ==> steps[i].now <= steps[j].now;
    }
  }

  lemma {:induction false} FillIsOrderly(steps: seq<Step>, d: Deployment, t: int, n: nat)
    requires Orderly(steps, d, t)
    ensures Orderly(Fill(steps, d, t, n), d, t)
  {
    hide Orderly, Run;
    if n > 0 {
      FillIsOrderly(steps, d, t, n - 1);
      var before := Fill(steps, d, t, n - 1);
      OrderlySnoc(before, d, t, Reserve(d, 1, t));
      OrderlySnoc(before + [Reserve(d, 1, t)], d, t, Finish(|Run(before).entries|, Some(NO_TOKENS)));
    }
  }

  /** A first request: turned away if there is a token limit, and admitted otherwise. */
  function Opening(d: Deployment): Step
  {
    Reserve(d, if d.tpm > 0 then d.tpm + 1 else 1, 0)
  }

  /** Everything that is left just before the first window ends, and then a full second window. */
  function Busiest(d: Deployment): seq<Step>
    requires d.rpm > 0
  {
    Fill(Fill([Opening(d)], d, MINUTE - 1, if d.tpm > 0 then d.rpm else d.rpm - 1), d, MINUTE, d.rpm)
  }

  lemma OpeningRuns(d: Deployment)
    requires d.rpm > 0
    ensures var l := Run([Opening(d)]); var key := KeyOf(d);
            && key in l.windows && l.windows[key] == Window(0, if d.tpm > 0 then 0 else 1, 0)
            && AdmittedWithin(l.entries, key, MINUTE - 1) == 0
    ensures Orderly([Opening(d)], d, MINUTE - 1)
  {
    hide KeyOf;
    assert [Opening(d)] == [] + [Opening(d)];
    RunSnoc([], Opening(d));
    var l := Next(EMPTY, Opening(d));
    if d.tpm <= 0 {
      var e := Entry(Ticket(KeyOf(d), 0, 0), 0, Open);
      assert l.entries == [e] && [e][..0] == [];
    }
  }

  /** The bound is reached, for every limit. */
  lemma MinuteBoundIsReached(d: Deployment)
    requires d.rpm > 0
    ensures Regular(Busiest(d), d)
    ensures AdmittedWithin(Run(Busiest(d)).entries, KeyOf(d), MINUTE - 1) == MinuteBound(d)
  {
    hide Run, KeyOf, Fill, AdmittedWithin, Orderly;
    var n := if d.tpm > 0 then d.rpm else d.rpm - 1;
    var first := [Opening(d)];
    var second := Fill(first, d, MINUTE - 1, n);
    OpeningRuns(d);
    FillRuns(first, d, MINUTE - 1, n, MINUTE - 1);
    NothingFilled(first, d, MINUTE - 1);
    FillRuns(second, d, MINUTE, d.rpm, MINUTE - 1);
    FillIsOrderly(first, d, MINUTE - 1, n);
    OrderlyLater(second, d, MINUTE - 1, MINUTE);
    FillIsOrderly(second, d, MINUTE, d.rpm);
    OrderlyIsRegular(Busiest(d), d, MINUTE);
  }

  lemma NothingFilled(steps: seq<Step>, d: Deployment, t: int)
    ensures Fill(steps, d, t, 0) == steps
  {
  }

  lemma OrderlyLater(steps: seq<Step>, d: Deployment, t: int, later: int)
    requires Orderly(steps, d, t) && t <= later
    ensures Orderly(steps, d, later)
  {
  }

  lemma OrderlyIsRegular(steps: seq<Step>, d: Deployment, t: int)
    requires Orderly(steps, d, t)
    ensures Regular(steps, d)
  {
  }

  /** The latest reservation of a run. */
  function Latest(steps: seq<Step>): (now: int)
    ensures forall s | s in steps && s.Reserve? :: s.now <= now
  {
    if steps == [] then 0
    else
      var front, last := steps[..|steps| - 1], steps[|steps| - 1];
      assert steps == front + [last];
      if last.Reserve? && last.now > Latest(front) then last.now else Latest(front)
  }

  ghost predicate KeepsLimit(steps: seq<Step>, d: Deployment, from: int)
  {
    AdmittedWithin(Run(steps).entries, KeyOf(d), from) <= d.rpm
  }

  /**
   * Every minute of every regular run keeps within the request limit if and only if the limit is one
   * request and there is no token limit.
   */
  lemma MinuteKeepsLimitIff(d: Deployment)
    requires d.rpm > 0
    ensures (forall steps, from | Regular(steps, d) :: KeepsLimit(steps, d, from)) <==> d.rpm == 1 && d.tpm <= 0
  {
    hide Run, KeyOf, AdmittedWithin, Regular;
    MinuteBoundIsReached(d);
    assert KeepsLimit(Busiest(d), d, MINUTE - 1) <==> MinuteBound(d) <= d.rpm;
    if d.rpm == 1 && d.tpm <= 0 {
      forall steps, from | Regular(steps, d) ensures KeepsLimit(steps, d, from) {
        MinuteBoundHolds(steps, d, from, Latest(steps));
      }
    }
  }

  // ---------- Exactly when a request is admitted ----------

  /** The window that counts for a key: its own while it lasts, and an empty one from now on after that. */
  predicate Lasts(l: Ledger, key: QuotaKey, now: int)
  {
    key in l.windows && now < l.windows[key].start + MINUTE
  }

  /** What the admissions of the current window leave of both limits. */
  predicate Affordable(l: Ledger, d: Deployment, estimate: int, now: int)
  {
    var key := KeyOf(d);
    var needed := if estimate >= 1 then estimate else 1;
    if Lasts(l, key, now) then
      var start := l.windows[key].start;
      && (d.rpm > 0 ==> Requests(l.entries, key, start) + 1 <= d.rpm)
      && (d.tpm > 0 ==> Tokens(l.entries, key, start) + needed <= d.tpm)
    else
      d.tpm > 0 ==> needed <= d.tpm
  }

  /**
   * After any run, a request of a limited deployment is admitted exactly if one more request and its
   * estimate, which is at least one token, fit into what the window's admissions leave. It then
   * counts in that window, or in a new one that starts now, and sets its tokens aside if there is a
   * token limit. A deployment without limits is never counted.
   */
  lemma AdmittedIff(steps: seq<Step>, d: Deployment, estimate: int, now: int)
    ensures var l := Run(steps); var admission := Reserved(l.windows, d, estimate, now).1; var key := KeyOf(d);
            && (admission.Unlimited? <==> d.rpm <= 0 && d.tpm <= 0)
            && (admission.Admitted? <==> (d.rpm > 0 || d.tpm > 0) && Affordable(l, d, estimate, now))
            && (admission.Admitted? ==>
                  && admission.ticket.key == key
                  && admission.ticket.start == (if Lasts(l, key, now) then l.windows[key].start else now)
                  && admission.ticket.tokens == (if d.tpm <= 0 then 0 else if estimate >= 1 then estimate else 1))
  {
    hide Run, Requests, Tokens, Spaced, KeyOf;
    LedgerIsBalanced(steps);
    assert Accounted(Run(steps), KeyOf(d));
  }

  /**
   * A request that is turned away is told exactly how long: until then it is turned away again, and
   * from then on it is admitted, unless it alone exceeds the token limit.
   */
  lemma WaitIsExact(ws: Windows, d: Deployment, estimate: int, now: int, later: int)
    requires Reserved(ws, d, estimate, now).1.Turned? && now <= later
    ensures var (after, admission) := Reserved(ws, d, estimate, now);
            var again := Reserved(after, d, estimate, later).1;
            && (later < now + admission.retryAfter ==> again.Turned?)
            && (now + admission.retryAfter <= later ==>
                  (again.Admitted? <==> d.tpm <= 0 || (estimate <= d.tpm && 1 <= d.tpm)))
            && (again.Turned? && later < now + admission.retryAfter ==>
                  later + again.retryAfter == now + admission.retryAfter)
  {
    hide KeyOf;
  }

  // ---------- What a finished call costs its window ----------

  /** The tokens that a call is charged when it is over, by its ending. */
  function Cost(answer: Answer, snapshot: Option<TokenUsage>, setAside: int): int
  {
    match snapshot
    case Some(u) => if u.total != 0 then u.total else u.prompt + u.completion
    case None =>
      match answer
      case HttpError => 0
      case TransportError => setAside
      case Streaming => setAside
      case Response(None) => setAside
      case Response(Some(u)) => if u.total != 0 then u.total else u.prompt + u.completion
  }

  /**
   * A call that was admitted and settled at once has cost its window one request, and, if there is a
   * token limit, the usage known of the attempt, or else what the response says; nothing for an HTTP
   * error, and what was set aside if the tokens are not known.
   */
  lemma CallCosts(ws: Windows, d: Deployment, estimate: int, now: int, answer: Answer, snapshot: Option<TokenUsage>)
    requires Reserved(ws, d, estimate, now).1.Admitted?
    ensures var (admitted, admission) := Reserved(ws, d, estimate, now);
            var after := Finished(admitted, admission.ticket, SettlementOf(answer, snapshot));
            var key := KeyOf(d); var before := Current(ws, key, now);
            && key in after && after[key].start == before.start && after[key].requests == before.requests + 1
            && after[key].tokens ==
               before.tokens + (if d.tpm <= 0 then 0 else Cost(answer, snapshot, admission.ticket.tokens))
            && forall k | k != key :: (k in after <==> k in ws) && (k in ws ==> after[k] == ws[k])
  {
    hide KeyOf;
  }
}
