/** The policy table of the favorites routes; every predicate is `async`. */
module FavoritesPaths {
  import opened Common
  import opened Requests
  import opened Mediator

  /** The awaited favorites of the caller, each with its owner's email, or a thrown error. */
  datatype FavoritesLookup = Listed(emails: seq<Option<string>>) | Failed

  /** PUT: false for no favorites or an error; otherwise a "premium_user" who owns the first one. */
  function PutDecision(req: Request, favorites: FavoritesLookup): (ok: bool)
    ensures ok <==> favorites.Listed? && |favorites.emails| > 0
                    && req.role == Some("premium_user") && req.user == favorites.emails[0]
  {
    match favorites
    case Failed => false
    case Listed(emails) =>
      if |emails| == 0 then false
      else req.role == Some("premium_user") && req.user == emails[0]
  }

  /** `FavoritesPaths`, given the lookup of the caller's favorites: GET, POST, PUT, DELETE, all jwt. */
  function Table(favoritesOf: Option<string> -> FavoritesLookup): (t: PolicyTable)
    ensures t.Keys == {"GET", "POST", "PUT", "DELETE"}
  {
    map[
      "GET" := Entry(Some(_ => Requires(Jwt)),
                     Some((req: Request) => Async(req.role == Some("premium_user") && req.user == Get(req.params, "email")))),
      "POST" := Entry(Some(_ => Requires(Jwt)), Some((req: Request) => Async(req.role == Some("premium_user")))),
      "PUT" := Entry(Some(_ => Requires(Jwt)), Some((req: Request) => Async(PutDecision(req, favoritesOf(req.user))))),
      "DELETE" := Entry(Some(_ => Requires(Jwt)),
                        Some((req: Request) => Async(req.role == Some("premium_user") && req.user == Get(req.body, "email"))))
    ]
  }

  /** As written, every method passes every jwt caller: the predicates are never awaited. */
  lemma AnyJwtPassesAsWritten(favoritesOf: Option<string> -> FavoritesLookup, req: Request)
    requires req.verb in {"GET", "POST", "PUT", "DELETE"}
    ensures Auth(Table(favoritesOf), req) == if req.authType == Some(Jwt) then Next else Throw(Unauthenticated)
  {
  }

  /** Reading another user's favorites passes as written. */
  lemma ForeignEmailPassesAsWritten(favoritesOf: Option<string> -> FavoritesLookup)
    ensures var req := Request("GET", "/favorites/b@x.io", map["email" := "b@x.io"], map[],
                               Some("a@x.io"), Some("premium_user"), Some(Jwt));
            Auth(Table(favoritesOf), req) == Next
  {
  }

  /** Awaited, reading another user's favorites is 403. */
  lemma ForeignEmailDeniedAwaited(favoritesOf: Option<string> -> FavoritesLookup)
    ensures var req := Request("GET", "/favorites/b@x.io", map["email" := "b@x.io"], map[],
                               Some("a@x.io"), Some("premium_user"), Some(Jwt));
            AuthAwaited(Table(favoritesOf), req) == Throw(Forbidden)
  {
  }

  /** Awaited, each method with jwt passes exactly the callers its predicate accepts; the rest are 403. */
  lemma Awaited(favoritesOf: Option<string> -> FavoritesLookup, req: Request)
    requires req.authType == Some(Jwt)
    ensures req.verb == "GET" ==> (AuthAwaited(Table(favoritesOf), req) ==
      if req.role == Some("premium_user") && req.user == Get(req.params, "email") then Next else Throw(Forbidden))
    ensures req.verb == "POST" ==> (AuthAwaited(Table(favoritesOf), req) ==
      if req.role == Some("premium_user") then Next else Throw(Forbidden))
    ensures req.verb == "PUT" ==> (AuthAwaited(Table(favoritesOf), req) ==
      if PutDecision(req, favoritesOf(req.user)) then Next else Throw(Forbidden))
    ensures req.verb == "DELETE" ==> (AuthAwaited(Table(favoritesOf), req) ==
      if req.role == Some("premium_user") && req.user == Get(req.body, "email") then Next else Throw(Forbidden))
  {
  }

  /** Awaited, PUT by a caller with no favorites, or whose lookup fails, is 403. */
  lemma PutWithoutFavorites(favoritesOf: Option<string> -> FavoritesLookup, req: Request)
    requires req.verb == "PUT" && req.authType == Some(Jwt)
    requires favoritesOf(req.user) == Failed || favoritesOf(req.user) == Listed([])
    ensures AuthAwaited(Table(favoritesOf), req) == Throw(Forbidden)
  {
  }
}
