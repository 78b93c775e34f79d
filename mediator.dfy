/**
 * The `auth(paths)` middleware: look up the entry for the request's method, check that the
 * required scheme is the one the request was authenticated with, then test the authorization
 * predicate.
 */
module Mediator {
  import opened Common
  import opened Errors
  import opened Requests

  /** One method's entry of a policy table, `{authentication, authorization}`; either may be missing. */
  datatype Entry = Entry(authentication: Option<Request -> Scheme>, authorization: Option<Request -> Verdict>)

  /** A policy table: HTTP method name to entry. */
  type PolicyTable = map<string, Entry>

  /** The middleware either calls `next()` or throws an error to the Express error handler. */
  datatype Outcome = Next | Throw(error: Error)

  /** Destructuring `paths[req.method]` when there is no entry: a TypeError without a status. */
  const MissingEntry: Error := TypeError("Cannot destructure property 'authentication' of 'paths[req.method]' as it is undefined.")
  /** Calling an `authentication` that the entry does not define. */
  const MissingAuthentication: Error := TypeError("authentication is not a function")
  const Misconfigured: Error := CreateError(500, "security configuration not provided")
  const Unauthenticated: Error := CreateError(401, "no required authentication")
  const Forbidden: Error := CreateError(403, "")

  /** The checks before the predicate: configuration, then scheme; `decide` judges the predicate's verdict. */
  function Gate(paths: PolicyTable, req: Request, decide: Verdict -> Outcome): Outcome
  {
    if req.verb !in paths then Throw(MissingEntry)
    else
      var entry := paths[req.verb];
      if entry.authorization.None? then Throw(Misconfigured)
      else if entry.authentication.None? then Throw(MissingAuthentication)
      else
        var required := entry.authentication.value(req);
        if required.NoAuth? then Next
        else if req.authType != Some(required.scheme) then Throw(Unauthenticated)
        else decide(entry.authorization.value(req))
  }

  /**
   * As written: the verdict is tested for truthiness and never awaited, so only a synchronous
   * `false` is refused; a Promise and a denial object both pass.
   */
  function Decide(v: Verdict): (o: Outcome)
    ensures o != Next <==> v == Sync(false)
    ensures v.Promise? ==> o == Next
    ensures v.Value? && v.value.Denial? ==> o == Next
    ensures o != Next ==> HandleError(o.error) == Response(403, "")
  {
    if Truthy(v) then Next else Throw(Forbidden)
  }

  /** `auth(paths)` applied to a request. */
  function Auth(paths: PolicyTable, req: Request): (o: Outcome)
    ensures o == Next ==> req.verb in paths && paths[req.verb].authorization.Some?
                          && paths[req.verb].authentication.Some?
    ensures o.Throw? ==> o.error in {MissingEntry, MissingAuthentication, Misconfigured, Unauthenticated, Forbidden}
  {
    Gate(paths, req, Decide)
  }

  /**
   * The verdict awaited: `true` passes, `false` is 403, and a denial object's status and message
   * are forwarded as the error.
   */
  function DecideAwaited(v: Verdict): (o: Outcome)
    ensures o == Next ==> Decide(v) == Next
    ensures o == Next <==> Settle(v) == Bool(true)
    ensures Settle(v) == Bool(false) ==> HandleError(o.error) == Response(403, "")
    ensures Settle(v).Denial? ==> HandleError(o.error) == Response(Settle(v).status, Settle(v).message)
  {
    match Settle(v)
    case Bool(b) => if b then Next else Throw(Forbidden)
    case Denial(status, message) => Throw(CreateError(status, message))
  }

  /** The mediator with the predicate's result awaited before it is judged. */
  function AuthAwaited(paths: PolicyTable, req: Request): (o: Outcome)
    ensures o == Next ==> req.verb in paths && paths[req.verb].authorization.Some?
                          && paths[req.verb].authentication.Some?
  {
    Gate(paths, req, DecideAwaited)
  }

  /** A method without an entry fails with an error that has no status; the handler answers 500. */
  lemma AuthMissingEntry(paths: PolicyTable, req: Request)
    requires req.verb !in paths
    ensures Auth(paths, req) == Throw(MissingEntry)
    ensures MissingEntry.status == None && HandleError(MissingEntry).status == 500
  {
  }

  /** An entry without an authorization predicate is a configuration error, 500. */
  lemma AuthMissingAuthorization(paths: PolicyTable, req: Request)
    requires req.verb in paths && paths[req.verb].authorization.None?
    ensures Auth(paths, req) == Throw(Misconfigured)
    ensures HandleError(Misconfigured) == Response(500, "security configuration not provided")
  {
  }

  /**
   * When no scheme is required the request passes whatever the predicate is: replacing the
   * predicate by any other does not change the outcome.
   */
  lemma AuthPublicSkipsPredicate(paths: PolicyTable, req: Request, other: Request -> Verdict)
    requires req.verb in paths
    requires var e := paths[req.verb];
             e.authorization.Some? && e.authentication.Some? && e.authentication.value(req) == NoAuth
    ensures Auth(paths, req) == Next
    ensures Auth(paths[req.verb := paths[req.verb].(authorization := Some(other))], req) == Next
  {
  }

  /**
   * A scheme mismatch, including no scheme at all, is 401 whatever the predicate is: replacing the
   * predicate by any other does not change the outcome.
   */
  lemma AuthSchemeMismatch(paths: PolicyTable, req: Request, other: Request -> Verdict)
    requires req.verb in paths
    requires var e := paths[req.verb];
             e.authorization.Some? && e.authentication.Some? && e.authentication.value(req).Requires?
             && req.authType != Some(e.authentication.value(req).scheme)
    ensures Auth(paths, req) == Throw(Unauthenticated)
    ensures Auth(paths[req.verb := paths[req.verb].(authorization := Some(other))], req) == Throw(Unauthenticated)
    ensures HandleError(Unauthenticated) == Response(401, "no required authentication")
  {
  }

  /** With the scheme matched, a falsy verdict is 403 with an empty message and a truthy one passes. */
  lemma AuthPredicateDecides(paths: PolicyTable, req: Request)
    requires req.verb in paths
    requires var e := paths[req.verb];
             e.authorization.Some? && e.authentication.Some? && e.authentication.value(req).Requires?
             && req.authType == Some(e.authentication.value(req).scheme)
    ensures Auth(paths, req) == (if Truthy(paths[req.verb].authorization.value(req)) then Next else Throw(Forbidden))
    ensures HandleError(Forbidden) == Response(403, "")
  {
  }

  /** A Promise is truthy, so an `async` predicate passes the check whatever it settles to. */
  lemma AuthPromisePasses(paths: PolicyTable, req: Request)
    requires req.verb in paths
    requires var e := paths[req.verb];
             e.authorization.Some? && e.authentication.Some? && e.authentication.value(req).Requires?
             && req.authType == Some(e.authentication.value(req).scheme)
             && e.authorization.value(req).Promise?
    ensures Auth(paths, req) == Next
  {
  }

  /** Awaiting only narrows what passes, and changes nothing for synchronous boolean predicates. */
  lemma AwaitedIsStricter(paths: PolicyTable, req: Request)
    ensures AuthAwaited(paths, req) == Next ==> Auth(paths, req) == Next
    ensures (req.verb in paths && paths[req.verb].authorization.Some?
             && paths[req.verb].authorization.value(req).Value?
             && paths[req.verb].authorization.value(req).value.Bool?)
            ==> AuthAwaited(paths, req) == Auth(paths, req)
  {
  }
}
