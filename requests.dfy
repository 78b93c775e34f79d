/** The request as the policy tables and the mediator read it, and the values they exchange. */
module Requests {
  import opened Common

  /** The scheme recorded in `req.authType`. */
  datatype AuthType = Jwt | Basic

  /** What `authentication(req)` returns: `false`, or the name of the scheme it requires. */
  datatype Scheme = NoAuth | Requires(scheme: AuthType)

  /**
   * The fields of an Express request that the authorization layer reads. `verb` is the HTTP method; `user`, `role` and
   * `authType` are the identity fields the authentication step fills in; `params` and `body`
   * are the path parameters and the parsed body, as string fields.
   */
  datatype Request = Request(
    verb: string,
    path: string,
    params: map<string, string>,
    body: map<string, string>,
    user: Option<string>,
    role: Option<string>,
    authType: Option<AuthType>)

  /** The environment settings the layer reads: `ADMIN_EMAIL` and `ADMIN_PASSWORD`. */
  datatype Config = Config(adminEmail: string, adminPassword: string)

  /** The payload of a token: `sub` and `role`, each possibly absent. */
  datatype Claims = Claims(sub: Option<string>, role: Option<string>)

  /**
   * What the body of an authorization predicate produces: a boolean, or the object
   * `{authorized: false, status, message}` that the comment predicates return on a failed lookup.
   */
  datatype Settled = Bool(b: bool) | Denial(status: int, message: string)

  /**
   * What `authorization(req)` hands back to its synchronous caller: the value itself for a plain
   * function, or a Promise of it for an `async` one.
   */
  datatype Verdict = Value(value: Settled) | Promise(settles: Settled)

  /** JavaScript truthiness of a verdict: only the boolean `false` is falsy; objects and Promises are truthy. */
  predicate Truthy(v: Verdict)
  {
    match v
    case Value(Bool(b)) => b
    case Value(Denial(_, _)) => true
    case Promise(_) => true
  }

  /** The value a Promise settles to, or the value itself: what `await authorization(req)` gives. */
  function Settle(v: Verdict): (s: Settled)
    ensures v.Value? ==> s == v.value
    ensures v.Promise? ==> s == v.settles
  {
    match v
    case Value(s) => s
    case Promise(s) => s
  }

  /** A synchronous predicate's boolean. */
  function Sync(b: bool): Verdict
  {
    Value(Bool(b))
  }

  /** An `async` predicate's boolean. */
  function Async(b: bool): Verdict
  {
    Promise(Bool(b))
  }
}
