/**
 * Request and token quotas per deployment and credential: `internal/router/capacity.go`.
 * Times are in nanoseconds.
 */
module Capacity {
  import opened Deployments

  const MINUTE := 60_000_000_000

  /** Aliases for one credential share a quota. */
  datatype QuotaKey = QuotaKey(deployment: DeploymentKey, credential: string)

  datatype Window = Window(start: int, requests: int, tokens: int)

  type Windows = map<QuotaKey, Window>

  datatype TokenUsage = TokenUsage(total: int, prompt: int, completion: int)

  const NO_TOKENS := TokenUsage(0, 0, 0)

  /** An admission: the window it counts in and the tokens set aside. */
  datatype Ticket = Ticket(key: QuotaKey, start: int, tokens: int)

  datatype Admission = Unlimited | Admitted(ticket: Ticket) | Turned(retryAfter: int)

  function KeyOf(d: Deployment): QuotaKey
  {
    QuotaKey(d.Key(), d.apiKey)
  }

  /** The window of a key now: a minute after its start it is replaced. */
  function Current(ws: Windows, key: QuotaKey, now: int): Window
  {
    if key in ws && now - ws[key].start < MINUTE then ws[key] else Window(now, 0, 0)
  }

  predicate OverLimit(d: Deployment, w: Window, tokens: int)
  {
    (d.rpm > 0 && w.requests >= d.rpm) || (d.tpm > 0 && w.tokens + tokens > d.tpm)
  }

  function AtLeastOne(tokens: int): int
  {
    if tokens < 1 then 1 else tokens
  }

  function Reserved(ws: Windows, d: Deployment, tokens: int, now: int): (Windows, Admission)
  {
    if d.rpm <= 0 && d.tpm <= 0 then (ws, Unlimited)
    else
      var key := KeyOf(d);
      var w := Current(ws, key, now);
      if OverLimit(d, w, AtLeastOne(tokens)) then (ws[key := w], Turned(MINUTE - (now - w.start)))
      else
        var charge := if d.tpm > 0 then AtLeastOne(tokens) else 0;
        (ws[key := Window(w.start, w.requests + 1, w.tokens + charge)], Admitted(Ticket(key, w.start, charge)))
  }

  function Actual(usage: TokenUsage): int
  {
    if usage.total == 0 then usage.prompt + usage.completion else usage.total
  }

  /** Known usage replaces the estimate, if the window is still the one of the admission. */
  predicate Settles(ws: Windows, t: Ticket, usage: Option<TokenUsage>)
  {
    usage.Some? && t.tokens != 0 && t.key in ws && ws[t.key].start == t.start
  }

  function Finished(ws: Windows, t: Ticket, usage: Option<TokenUsage>): Windows
  {
    if Settles(ws, t, usage)
    then ws[t.key := ws[t.key].(tokens := ws[t.key].tokens + Actual(usage.value) - t.tokens)]
    else ws
  }

  class CapacityLimiter {
    var windows: Windows

    constructor ()
      ensures windows == map[]
    {
      windows := map[];
    }

    method Reserve(d: Deployment, estimate: int, now: int)
      returns (reservation: CapacityReservation?, retryAfter: Option<int>)
      modifies this
      ensures windows == Reserved(old(windows), d, estimate, now).0
      ensures match Reserved(old(windows), d, estimate, now).1
              case Unlimited => reservation == null && retryAfter == None
              case Turned(wait) => reservation == null && retryAfter == Some(wait)
              case Admitted(t) => reservation != null && fresh(reservation) && !reservation.finished
                                  && reservation.limiter == this && reservation.ticket == t && retryAfter == None
    {
      reservation, retryAfter := null, None;
      if d.rpm <= 0 && d.tpm <= 0 {
        return;
      }
      var tokens := estimate;
      if tokens < 1 {
        tokens := 1;
      }
      var key := KeyOf(d);
      var window: Window;
      if key !in windows || now - windows[key].start >= MINUTE {
        window := Window(now, 0, 0);
        windows := windows[key := window];
      } else {
        window := windows[key];
      }
      if (d.rpm > 0 && window.requests >= d.rpm) || (d.tpm > 0 && window.tokens + tokens > d.tpm) {
        retryAfter := Some(MINUTE - (now - window.start));
        return;
      }
      window := window.(requests := window.requests + 1);
      if d.tpm > 0 {
        window := window.(tokens := window.tokens + tokens);
      } else {
        tokens := 0;
      }
      windows := windows[key := window];
      reservation := new CapacityReservation(this, Ticket(key, window.start, tokens));
    }
  }

  class CapacityReservation {
    const limiter: CapacityLimiter
    const ticket: Ticket
    var finished: bool

    constructor (limiter: CapacityLimiter, ticket: Ticket)
      ensures this.limiter == limiter && this.ticket == ticket && !finished
    {
      this.limiter, this.ticket, finished := limiter, ticket, false;
    }

    /** Only the first call does anything. */
    method Finish(usage: Option<TokenUsage>)
      modifies this, limiter
      ensures finished
      ensures limiter.windows == if old(finished) then old(limiter.windows)
                                 else Finished(old(limiter.windows), ticket, usage)
    {
      if finished {
        return;
      }
      finished := true;
      if usage.None? || ticket.tokens == 0 {
        return;
      }
      if ticket.key in limiter.windows {
        var w := limiter.windows[ticket.key];
        if w.start == ticket.start {
          var actual := usage.value.total;
          if actual == 0 {
            actual := usage.value.prompt + usage.value.completion;
          }
          limiter.windows := limiter.windows[ticket.key := w.(tokens := w.tokens + actual - ticket.tokens)];
        }
      }
    }
  }

  // ---------- Streams ----------

  /** A stream settles at its end or when it is closed, with the last usage it carried. */
  class CapacityStream {
    const reservation: CapacityReservation
    var usage: Option<TokenUsage>

    constructor (reservation: CapacityReservation)
      ensures this.reservation == reservation && usage == None
    {
      this.reservation, usage := reservation, None;
    }

    method Recv(chunk: Option<TokenUsage>, eof: bool)
      modifies this, reservation, reservation.limiter
      ensures usage == if chunk.Some? then chunk else old(usage)
      ensures reservation.finished == (old(reservation.finished) || eof)
      ensures reservation.limiter.windows ==
              if eof && !old(reservation.finished)
              then Finished(old(reservation.limiter.windows), reservation.ticket,
                            if chunk.Some? then chunk else old(usage))
              else old(reservation.limiter.windows)
    {
      if chunk.Some? {
        usage := chunk;
      }
      if eof {
        reservation.Finish(usage);
      }
    }

    method Close()
      modifies reservation, reservation.limiter
      ensures reservation.finished
      ensures reservation.limiter.windows ==
              if old(reservation.finished) then old(reservation.limiter.windows)
              else Finished(old(reservation.limiter.windows), reservation.ticket, usage)
    {
      reservation.Finish(usage);
    }
  }

  // ---------- One guarded call ----------

  /** How the guarded callback ended. */
  datatype Answer =
    | HttpError
    | TransportError
    | Response(usage: Option<TokenUsage>)
    | Streaming

  /** What to settle with when the call is over: none means that the estimate stands. */
  function SettlementOf(answer: Answer, snapshot: Option<TokenUsage>): Option<TokenUsage>
  {
    if snapshot.Some? then snapshot
    else
      match answer
      case HttpError => Some(NO_TOKENS)
      case TransportError => None
      case Response(usage) => usage
      case Streaming => None
  }

  datatype Invoked = Rejected(retryAfter: int) | Failed | Succeeded

  /**
   * Reserves, calls, and settles at once unless the call goes on as a stream or someone else takes
   * over the settlement. Then the reservation is handed out unfinished.
   */
  method Invoke(limiter: CapacityLimiter, d: Deployment, estimate: int, now: int, answer: Answer,
                snapshot: Option<TokenUsage>, deferred: bool)
    returns (r: Invoked, pending: CapacityReservation?)
    modifies limiter
    ensures var (ws, admission) := Reserved(old(limiter.windows), d, estimate, now);
            match admission
            case Turned(wait) => r == Rejected(wait) && limiter.windows == ws && pending == null
            case Unlimited =>
              && !r.Rejected? && r.Failed? == (answer.HttpError? || answer.TransportError?)
              && limiter.windows == ws && pending == null
            case Admitted(t) =>
              && !r.Rejected? && r.Failed? == (answer.HttpError? || answer.TransportError?)
              && (if !r.Failed? && (deferred || (answer.Streaming? && snapshot.None?))
                  then pending != null && !pending.finished && pending.ticket == t && pending.limiter == limiter
                       && limiter.windows == ws
                  else pending == null && limiter.windows == Finished(ws, t, SettlementOf(answer, snapshot)))
  {
    pending := null;
    var reservation, wait := limiter.Reserve(d, estimate, now);
    if wait.Some? {
      return Rejected(wait.value), null;
    }
    if answer.HttpError? || answer.TransportError? {
      var usage := if answer.HttpError? then Some(NO_TOKENS) else None;
      if snapshot.Some? {
        usage := snapshot;
      }
      if reservation != null {
        reservation.Finish(usage);
      }
      return Failed, null;
    }
    if deferred {
      return Succeeded, reservation;
    }
    if snapshot.Some? {
      if reservation != null {
        reservation.Finish(snapshot);
      }
      return Succeeded, null;
    }
    if answer.Streaming? {
      return Succeeded, reservation;
    }
    if reservation != null {
      reservation.Finish(answer.usage);
    }
    r := Succeeded;
  }
}
