/** The policy table of the comments routes; POST and DELETE look the comment up first. */
module CommentsPaths {
  import opened Common
  import opened Errors
  import opened Requests
  import opened Mediator

  /**
   * The awaited result of looking a comment up by id: a comment with its author's email,
   * `null`, or a thrown error with its message.
   */
  datatype CommentLookup = Found(email: Option<string>) | FoundNull | Failed(message: string)

  const CommentNotFound := "Comment not found"
  /** Reading `comment.email` of `null`. */
  const NullRead := "Cannot read properties of null (reading 'email')"

  /** The `catch` block: 'Comment not found' becomes a 404 object, every other error a 500 object. */
  function LookupFailure(message: string): (s: Settled)
    ensures s.Denial?
    ensures HandleError(CreateError(s.status, s.message)) == Response(404, CommentNotFound) <==> message == CommentNotFound
    ensures message != CommentNotFound ==> HandleError(CreateError(s.status, s.message)) == Response(500, "Internal server error")
  {
    if message == CommentNotFound then Denial(404, CommentNotFound)
    else Denial(500, "Internal server error")
  }

  /**
   * POST: a "premium_user" who wrote the comment. The role is tested first, so `null` fails only
   * a premium caller (reading `email` of it throws).
   */
  function PostDecision(req: Request, lookup: CommentLookup): (s: Settled)
    ensures s == Bool(true) <==> lookup.Found? && req.role == Some("premium_user") && lookup.email == req.user
    ensures lookup.Failed? ==> s == LookupFailure(lookup.message)
    ensures s.Denial? ==> lookup.Failed? || (lookup.FoundNull? && req.role == Some("premium_user"))
  {
    match lookup
    case Failed(m) => LookupFailure(m)
    case FoundNull => if req.role == Some("premium_user") then LookupFailure(NullRead) else Bool(false)
    case Found(email) => Bool(req.role == Some("premium_user") && email == req.user)
  }

  /** DELETE: an admin, or a "premium_user" who wrote the comment; the lookup still comes first. */
  function DeleteDecision(req: Request, lookup: CommentLookup): (s: Settled)
    ensures s == Bool(true) <==> !lookup.Failed? && (req.role == Some("admin")
                                   || (lookup.Found? && req.role == Some("premium_user") && lookup.email == req.user))
    ensures lookup.Failed? ==> s == LookupFailure(lookup.message)
  {
    match lookup
    case Failed(m) => LookupFailure(m)
    case FoundNull =>
      if req.role == Some("admin") then Bool(true)
      else if req.role == Some("premium_user") then LookupFailure(NullRead)
      else Bool(false)
    case Found(email) => Bool(req.role == Some("admin") || (req.role == Some("premium_user") && email == req.user))
  }

  /**
   * `CommentsPaths`, given the comment lookup: POST looks up `body.id`, DELETE `params.id`; both
   * predicates are `async`.
   */
  function Table(find: Option<string> -> CommentLookup): (t: PolicyTable)
    ensures t.Keys == {"GET", "POST", "DELETE"}
  {
    map[
      "GET" := Entry(Some(_ => Requires(Jwt)), Some(_ => Sync(true))),
      "POST" := Entry(Some(_ => Requires(Jwt)), Some((req: Request) => Promise(PostDecision(req, find(Get(req.body, "id")))))),
      "DELETE" := Entry(Some(_ => Requires(Jwt)), Some((req: Request) => Promise(DeleteDecision(req, find(Get(req.params, "id"))))))
    ]
  }

  /** Reading comments: jwt and nothing else. */
  lemma ReadOpen(find: Option<string> -> CommentLookup, req: Request)
    requires req.verb == "GET"
    ensures Auth(Table(find), req) == if req.authType == Some(Jwt) then Next else Throw(Unauthenticated)
  {
  }

  /** As written, posting or deleting passes every jwt caller, whatever the lookup finds. */
  lemma WritesPassAsWritten(find: Option<string> -> CommentLookup, req: Request)
    requires req.verb == "POST" || req.verb == "DELETE"
    ensures Auth(Table(find), req) == if req.authType == Some(Jwt) then Next else Throw(Unauthenticated)
  {
  }

  /**
   * Awaited, posting passes exactly the premium author of the comment `body.id` names; someone
   * else's comment is 403 and a missing one 404.
   */
  lemma PostAwaited(find: Option<string> -> CommentLookup, req: Request)
    requires req.verb == "POST" && req.authType == Some(Jwt)
    ensures var lookup := find(Get(req.body, "id"));
      && (AuthAwaited(Table(find), req) == Next
          <==> lookup.Found? && req.role == Some("premium_user") && lookup.email == req.user)
      && (lookup.Found? && lookup.email != req.user ==> AuthAwaited(Table(find), req) == Throw(Forbidden))
      && (lookup == Failed(CommentNotFound) ==> AuthAwaited(Table(find), req) == Throw(CreateError(404, CommentNotFound)))
  {
  }

  /** Awaited, an admin deletes any comment that the lookup finds, whoever wrote it. */
  lemma DeleteAwaited(find: Option<string> -> CommentLookup, req: Request)
    requires req.verb == "DELETE" && req.authType == Some(Jwt)
    ensures var lookup := find(Get(req.params, "id"));
      && (req.role == Some("admin") && !lookup.Failed? ==> AuthAwaited(Table(find), req) == Next)
      && (lookup.Failed? ==> AuthAwaited(Table(find), req)
                               == Throw(CreateError(LookupFailure(lookup.message).status, LookupFailure(lookup.message).message)))
  {
  }
}
