/**
 * The `reqLimiter` middleware: a per-account request counter persisted with the account. The
 * window is reset once it has run out, a "user" at the quota is refused, and every other request
 * is counted and passes.
 */
module RequestQuota {
  import opened Common
  import opened Requests

  const RequestsLimit := 2
  const TimeWindow := 60 * 1000

  /** The counter fields of a stored account; either may be missing from the record. */
  datatype Quota = Quota(numRequest: Option<int>, lastResetTime: Option<int>)

  /** The stored counters, keyed by the account's email (the caller's `req.user`). */
  type Quotas = map<Option<string>, Quota>

  /** Which awaited store call throws, if the request gets that far. */
  datatype Fault = NoFault | LookupFails | ResetFails | IncrementFails

  /** `next()`, or the response the middleware sends itself. */
  datatype QuotaOutcome = Next | Refused(status: int, message: string)

  const AccountNotFound := Refused(404, "Account not found")
  const RequestsExceeded := Refused(429, "Number of requests exceeded")
  const InternalError := Refused(500, "Internal server error")

  /** `now - lastResetTime > TIME_WINDOW`; a missing time makes the difference NaN and the test false. */
  predicate WindowOver(q: Quota, now: int)
  {
    q.lastResetTime.Some? && now - q.lastResetTime.value > TimeWindow
  }

  /** `numRequest >= REQS_LIMIT`; a missing count compares false. */
  predicate AtQuota(q: Quota)
  {
    q.numRequest.Some? && q.numRequest.value >= RequestsLimit
  }

  /**
   * The store's increment: a missing count starts from zero. The window is left as it was, and a
   * count below the quota never goes past it.
   */
  function Incremented(q: Quota): (r: Quota)
    ensures forall now :: WindowOver(r, now) == WindowOver(q, now)
    ensures r.numRequest.Some? && (q.numRequest.None? ==> r.numRequest.value == 1)
    ensures q.numRequest.Some? && 0 <= q.numRequest.value && !AtQuota(q) ==> r.numRequest.value <= RequestsLimit
    ensures q.numRequest.Some? && q.numRequest.value >= 0 ==> r.numRequest.value > q.numRequest.value
  {
    q.(numRequest := Some(match q.numRequest case Some(n) => n + 1 case None => 1))
  }

  /** One request through `reqLimiter`: the answer and the stored counters afterwards. */
  function QuotaStep(quotas: Quotas, req: Request, now: int, fault: Fault): (QuotaOutcome, Quotas)
  {
    if fault == LookupFails then (InternalError, quotas)
    else if req.user !in quotas then (AccountNotFound, quotas)
    else
      var stored := quotas[req.user];
      if WindowOver(stored, now) && fault == ResetFails then (InternalError, quotas)
      else
        var current := if WindowOver(stored, now) then Quota(Some(0), Some(now)) else stored;
        var reset := if WindowOver(stored, now) then quotas[req.user := current] else quotas;
        if req.role == Some("user") && AtQuota(current) then (RequestsExceeded, reset)
        else if fault == IncrementFails then (InternalError, reset)
        else (Next, quotas[req.user := Incremented(current)])
  }

  /** The account store's counters and the middleware that reads and updates them. */
  class RequestLimiter {
    var quotas: Quotas

    constructor (quotas: Quotas)
      ensures this.quotas == quotas
    {
      this.quotas := quotas;
    }

    method Limit(req: Request, now: int, fault: Fault) returns (outcome: QuotaOutcome)
      modifies this
      ensures (outcome, quotas) == QuotaStep(old(quotas), req, now, fault)
    {
      if fault == LookupFails {
        return InternalError;
      }
      if req.user !in quotas {
        return AccountNotFound;
      }
      ghost var stored := quotas;
      var account := quotas[req.user];
      if WindowOver(account, now) {
        if fault == ResetFails {
          return InternalError;
        }
        account := account.(numRequest := Some(0), lastResetTime := Some(now));
        quotas := quotas[req.user := account];
      }
      if req.role == Some("user") && AtQuota(account) {
        return RequestsExceeded;
      }
      if fault == IncrementFails {
        return InternalError;
      }
      quotas := quotas[req.user := Incremented(account)];
      assert quotas == stored[req.user := Incremented(account)];
      outcome := Next;
    }
  }

  /** An unknown caller is answered 404 and nothing is counted. */
  lemma UnknownAccount(quotas: Quotas, req: Request, now: int, fault: Fault)
    requires fault != LookupFails && req.user !in quotas
    ensures QuotaStep(quotas, req, now, fault) == (AccountNotFound, quotas)
  {
  }

  /** Roles other than "user" are never refused by the quota: their request is counted once and passes. */
  lemma OnlyUsersAreCapped(quotas: Quotas, req: Request, now: int)
    requires req.user in quotas && req.role != Some("user")
    ensures var (outcome, after) := QuotaStep(quotas, req, now, NoFault);
            && outcome == Next
            && after.Keys == quotas.Keys
            && after[req.user].numRequest.Some?
            && after[req.user].numRequest.value
               == (if WindowOver(quotas[req.user], now) || quotas[req.user].numRequest.None? then 0
                   else quotas[req.user].numRequest.value) + 1
  {
  }

  /**
   * A "user" inside an open window is refused with 429 exactly when at the quota, and nothing is
   * counted; below it, the request passes and is counted once. Once the window has run out, the
   * counter restarts and the request passes.
   */
  lemma UserQuota(quotas: Quotas, req: Request, now: int)
    requires req.user in quotas && req.role == Some("user")
    ensures !WindowOver(quotas[req.user], now) && !AtQuota(quotas[req.user])
            ==> QuotaStep(quotas, req, now, NoFault) == (Next, quotas[req.user := Incremented(quotas[req.user])])
    ensures !WindowOver(quotas[req.user], now) && AtQuota(quotas[req.user])
            ==> QuotaStep(quotas, req, now, NoFault) == (RequestsExceeded, quotas)
    ensures WindowOver(quotas[req.user], now)
            ==> QuotaStep(quotas, req, now, NoFault) == (Next, quotas[req.user := Quota(Some(1), Some(now))])
  {
  }

  /** The reset is strict: a window exactly `TimeWindow` old is still open. */
  lemma WindowBoundary(q: Quota, start: int)
    requires q.lastResetTime == Some(start)
    ensures !WindowOver(q, start + TimeWindow) && WindowOver(q, start + TimeWindow + 1)
  {
  }

  /** A "user" whose count is within the quota stays within it after any request. */
  lemma UserCountStaysWithinQuota(quotas: Quotas, req: Request, now: int, fault: Fault)
    requires req.user in quotas && req.role == Some("user")
    requires quotas[req.user].numRequest.Some? ==> quotas[req.user].numRequest.value <= RequestsLimit
    ensures var after := QuotaStep(quotas, req, now, fault).1;
            req.user in after && (after[req.user].numRequest.Some? ==> after[req.user].numRequest.value <= RequestsLimit)
  {
  }

  /**
   * A failing lookup or increment never lets the request through, and a 500 leaves the counters
   * as they were, except for a reset already made.
   */
  lemma StoreFailureIs500(quotas: Quotas, req: Request, now: int, fault: Fault)
    ensures fault == LookupFails || fault == IncrementFails ==> QuotaStep(quotas, req, now, fault).0 != Next
    ensures var (outcome, after) := QuotaStep(quotas, req, now, fault);
            outcome == InternalError
            ==> (|| after == quotas
                 || (req.user in quotas && WindowOver(quotas[req.user], now)
                     && after == quotas[req.user := Quota(Some(0), Some(now))]))
  {
  }
}
