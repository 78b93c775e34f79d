/** The policy table of the accounts routes. */
module AccountPaths {
  import opened Common
  import opened Strings
  import opened Requests
  import opened Mediator

  /** POST: basic authentication for paths containing "/admin", none otherwise. */
  function PostAuthentication(req: Request): Scheme
  {
    if Includes(req.path, "/admin") then Requires(Basic) else NoAuth
  }

  /** POST: under "/admin" only the configured administrator or an admin role; otherwise anyone. */
  function PostAuthorization(cfg: Config, req: Request): bool
  {
    if Includes(req.path, "/admin") then req.user == Some(cfg.adminEmail) || req.role == Some("admin")
    else true
  }

  /** The caller is the configured administrator, the account named by the path, or an admin. */
  function SelfOrAdmin(cfg: Config, req: Request): bool
  {
    req.user == Some(cfg.adminEmail) || req.user == Get(req.params, "email") || req.role == Some("admin")
  }

  /** The caller is the configured administrator or an admin. */
  function AdminOnly(cfg: Config, req: Request): bool
  {
    req.user == Some(cfg.adminEmail) || req.role == Some("admin")
  }

  /** PATCH: the first of "/password", "/roles", "/block", "/unblock" in the path picks the rule. */
  function PatchAuthorization(cfg: Config, req: Request): bool
  {
    if Includes(req.path, "/password") then SelfOrAdmin(cfg, req)
    else if Includes(req.path, "/roles") then AdminOnly(cfg, req)
    else if Includes(req.path, "/block") then AdminOnly(cfg, req)
    else if Includes(req.path, "/unblock") then AdminOnly(cfg, req)
    else false
  }

  /** `AccountPaths`: entries for POST, GET, PATCH and DELETE only. */
  function Table(cfg: Config): (t: PolicyTable)
    ensures t.Keys == {"POST", "GET", "PATCH", "DELETE"}
  {
    map[
      "POST" := Entry(Some(PostAuthentication), Some((req: Request) => Sync(PostAuthorization(cfg, req)))),
      "GET" := Entry(Some(_ => Requires(Jwt)), Some((req: Request) => Sync(SelfOrAdmin(cfg, req)))),
      "PATCH" := Entry(Some(_ => Requires(Jwt)), Some((req: Request) => Sync(PatchAuthorization(cfg, req)))),
      "DELETE" := Entry(Some(_ => Requires(Jwt)), Some((req: Request) => Sync(SelfOrAdmin(cfg, req))))
    ]
  }

  /** Creating an admin account: basic authentication, then the configured administrator or an admin role. */
  lemma AdminCreation(cfg: Config, req: Request)
    requires req.verb == "POST" && Includes(req.path, "/admin")
    ensures Auth(Table(cfg), req) ==
      if req.authType != Some(Basic) then Throw(Unauthenticated)
      else if req.user == Some(cfg.adminEmail) || req.role == Some("admin") then Next
      else Throw(Forbidden)
  {
  }

  /** Any other POST (creating a user account, logging in) needs no authentication and always passes. */
  lemma PublicPost(cfg: Config, req: Request)
    requires req.verb == "POST" && !Includes(req.path, "/admin")
    ensures Auth(Table(cfg), req) == Next
  {
  }

  /** Reading or deleting an account: jwt, then the administrator, the account's owner or an admin. */
  lemma ReadOrDeleteSelfOrAdmin(cfg: Config, req: Request)
    requires req.verb == "GET" || req.verb == "DELETE"
    ensures Auth(Table(cfg), req) ==
      if req.authType != Some(Jwt) then Throw(Unauthenticated)
      else if req.user == Some(cfg.adminEmail) || req.user == Get(req.params, "email") || req.role == Some("admin") then Next
      else Throw(Forbidden)
  {
  }

  /** Changing a password: the owner-or-admin rule, which wins over every later PATCH rule. */
  lemma PasswordPatch(cfg: Config, req: Request)
    requires req.verb == "PATCH" && Includes(req.path, "/password")
    ensures Auth(Table(cfg), req) ==
      if req.authType != Some(Jwt) then Throw(Unauthenticated)
      else if req.user == Some(cfg.adminEmail) || req.user == Get(req.params, "email") || req.role == Some("admin") then Next
      else Throw(Forbidden)
  {
  }

  /** Changing roles, blocking or unblocking: the administrator or an admin only, never the owner as such. */
  lemma AdminOnlyPatch(cfg: Config, req: Request)
    requires req.verb == "PATCH" && !Includes(req.path, "/password")
    requires Includes(req.path, "/roles") || Includes(req.path, "/block") || Includes(req.path, "/unblock")
    ensures Auth(Table(cfg), req) ==
      if req.authType != Some(Jwt) then Throw(Unauthenticated)
      else if req.user == Some(cfg.adminEmail) || req.role == Some("admin") then Next
      else Throw(Forbidden)
  {
  }

  /** Any other PATCH is refused to everyone, administrator included. */
  lemma OtherPatchDenied(cfg: Config, req: Request)
    requires req.verb == "PATCH"
    requires !Includes(req.path, "/password") && !Includes(req.path, "/roles")
    requires !Includes(req.path, "/block") && !Includes(req.path, "/unblock")
    ensures Auth(Table(cfg), req) == if req.authType != Some(Jwt) then Throw(Unauthenticated) else Throw(Forbidden)
  {
  }

  /** Methods without an entry fail with the statusless destructuring error. */
  lemma UnlistedMethod(cfg: Config, req: Request)
    requires req.verb !in {"POST", "GET", "PATCH", "DELETE"}
    ensures Auth(Table(cfg), req) == Throw(MissingEntry)
  {
  }
}
