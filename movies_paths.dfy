/** The policy table of the movies routes. */
module MoviesPaths {
  import opened Common
  import opened Requests
  import opened Mediator

  /** Every listed method: any role but "admin", an absent role included. */
  function NotAdmin(req: Request): bool
  {
    req.role != Some("admin")
  }

  /** `MoviesPaths`: GET, POST and PATCH, each with jwt and the not-admin rule. */
  function Table(): (t: PolicyTable)
    ensures t.Keys == {"GET", "POST", "PATCH"}
  {
    map[
      "GET" := Entry(Some(_ => Requires(Jwt)), Some((req: Request) => Sync(NotAdmin(req)))),
      "POST" := Entry(Some(_ => Requires(Jwt)), Some((req: Request) => Sync(NotAdmin(req)))),
      "PATCH" := Entry(Some(_ => Requires(Jwt)), Some((req: Request) => Sync(NotAdmin(req))))
    ]
  }

  /** Each listed method: jwt, then every role except "admin" passes. */
  lemma ListedMethods(req: Request)
    requires req.verb in {"GET", "POST", "PATCH"}
    ensures Auth(Table(), req) ==
      if req.authType != Some(Jwt) then Throw(Unauthenticated)
      else if req.role == Some("admin") then Throw(Forbidden)
      else Next
  {
  }

  /** Rating a movie (PATCH) is open to a plain "user" and to a request with no role, and closed to admins. */
  lemma RatingRoles(req: Request)
    requires req.verb == "PATCH" && req.authType == Some(Jwt)
    ensures req.role in {Some("user"), Some("premium_user"), Some(""), None} ==> Auth(Table(), req) == Next
    ensures req.role == Some("admin") ==> Auth(Table(), req) == Throw(Forbidden)
  {
  }

  /** PUT and DELETE have no entry. */
  lemma NoPutOrDelete(req: Request)
    requires req.verb == "PUT" || req.verb == "DELETE"
    ensures Auth(Table(), req) == Throw(MissingEntry)
  {
  }
}
