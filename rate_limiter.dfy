/**
 * The `rateLimiter` middleware: one process-wide map, keyed by the caller, that holds either a
 * fixed-window GET counter (role "user") or the set of movies rated so far (role "premium_user").
 */
module RateLimiting {
  import opened Common
  import opened Errors
  import opened Requests

  const RateLimit := 2
  const TimeWindow := 60 * 1000

  /** One caller's entry: a counter with its window start, or a set of movie ids. */
  datatype Slot = Window(count: int, startTime: int) | Rated(movies: set<Option<string>>)

  /** The map, keyed by `req.user` (absent users share the key `None`). */
  type Limits = map<Option<string>, Slot>

  /** The middleware answers 429, throws to the error handler, or calls `next()`. */
  datatype LimitOutcome = Next | TooMany(message: string) | Throw(error: Error)

  const RateExceeded := "Rate limit exceeded"
  const AlreadyRated := "You have already rated this movie"
  /** A counter entry read as a set. */
  const NotASet := TypeError("ratedMovies.has is not a function")

  /**
   * The GET branch. A set entry has no `startTime`, so the elapsed time is NaN, the window test is
   * false and the entry is replaced by a fresh counter.
   */
  function CountGet(limits: Limits, user: Option<string>, now: int): (r: (LimitOutcome, Limits))
    ensures r.0 != Next ==> r == (TooMany(RateExceeded), limits)
    ensures r.1.Keys == limits.Keys + {user}
    ensures forall u :: u in limits && u != user ==> r.1[u] == limits[u]
  {
    if user !in limits then (Next, limits[user := Window(1, now)])
    else
      match limits[user]
      case Window(count, start) =>
        if now - start < TimeWindow then
          if count >= RateLimit then (TooMany(RateExceeded), limits)
          else (Next, limits[user := Window(count + 1, start)])
        else (Next, limits[user := Window(1, now)])
      case Rated(_) => (Next, limits[user := Window(1, now)])
  }

  /** The PATCH branch: a movie id is accepted once per caller. */
  function RecordRating(limits: Limits, user: Option<string>, movie: Option<string>): (r: (LimitOutcome, Limits))
    ensures r.0 != Next ==> r.1 == limits
    ensures r.0 == Next <==> (user !in limits || (limits[user].Rated? && movie !in limits[user].movies))
    ensures r.0 == Next ==> r.1 == limits[user := Rated((if user in limits then limits[user].movies else {}) + {movie})]
  {
    if user !in limits then
      assert {} + {movie} == {movie};
      (Next, limits[user := Rated({movie})])
    else
      match limits[user]
      case Rated(movies) =>
        if movie in movies then (TooMany(AlreadyRated), limits)
        else (Next, limits[user := Rated(movies + {movie})])
      case Window(_, _) => (Throw(NotASet), limits)
  }

  /** One request through `rateLimiter`. */
  function Step(limits: Limits, req: Request, now: int): (LimitOutcome, Limits)
  {
    if req.verb == "GET" && req.role == Some("user") then CountGet(limits, req.user, now)
    else if req.verb == "PATCH" && req.role == Some("premium_user") then RecordRating(limits, req.user, Get(req.params, "imdb"))
    else (Next, limits)
  }

  /** Every counter lies between 1 and the limit. */
  ghost predicate Bounded(limits: Limits)
  {
    forall u :: u in limits && limits[u].Window? ==> 1 <= limits[u].count <= RateLimit
  }

  /** The module-level map and the middleware that updates it. */
  class RateLimiter {
    var limits: Limits

    ghost predicate Valid()
      reads this
    {
      Bounded(limits)
    }

    constructor ()
      ensures Valid() && limits == map[]
    {
      limits := map[];
    }

    method Limit(req: Request, now: int) returns (outcome: LimitOutcome)
      requires Valid()
      modifies this
      ensures Valid()
      ensures (outcome, limits) == Step(old(limits), req, now)
    {
      outcome := Next;
      if req.verb == "GET" && req.role == Some("user") {
        var user := req.user;
        if user !in limits {
          limits := limits[user := Window(1, now)];
        } else {
          var userData := limits[user];
          if userData.Window? && now - userData.startTime < TimeWindow {
            if userData.count >= RateLimit {
              return TooMany(RateExceeded);
            } else {
              limits := limits[user := userData.(count := userData.count + 1)];
            }
          } else {
            limits := limits[user := Window(1, now)];
          }
        }
      }
      if req.verb == "PATCH" && req.role == Some("premium_user") {
        var user := req.user;
        var movieId := Get(req.params, "imdb");
        if user !in limits {
          limits := limits[user := Rated({})];
        }
        var ratedMovies := limits[user];
        if ratedMovies.Window? {
          return Throw(NotASet);
        }
        if movieId in ratedMovies.movies {
          return TooMany(AlreadyRated);
        } else {
          limits := limits[user := Rated(ratedMovies.movies + {movieId})];
        }
        assert limits == old(limits)[user := Rated(ratedMovies.movies + {movieId})];
      }
      StepKeepsBounded(old(limits), req, now);
    }
  }

  /** Each step keeps every counter between 1 and the limit. */
  lemma StepKeepsBounded(limits: Limits, req: Request, now: int)
    requires Bounded(limits)
    ensures Bounded(Step(limits, req, now).1)
  {
  }

  /** Only a GET by a "user" and a PATCH by a "premium_user" are limited; everything else passes untouched. */
  lemma OtherRequestsUntouched(limits: Limits, req: Request, now: int)
    requires !(req.verb == "GET" && req.role == Some("user"))
    requires !(req.verb == "PATCH" && req.role == Some("premium_user"))
    ensures Step(limits, req, now) == (Next, limits)
  {
  }

  /** A GET by a "user" as the only kind of request the caller has made. */
  function UserGet(user: Option<string>): Request
  {
    Request("GET", "", map[], map[], user, Some("user"), Some(Jwt))
  }

  /** GETs by one "user" at the given times: how many passed, and the map afterwards. */
  function RunGets(limits: Limits, user: Option<string>, times: seq<int>): (nat, Limits)
    decreases |times|
  {
    if times == [] then (0, limits)
    else
      var (outcome, next) := Step(limits, UserGet(user), times[0]);
      var (passed, last) := RunGets(next, user, times[1..]);
      (passed + (if outcome == Next then 1 else 0), last)
  }

  function Min(a: int, b: int): int
  {
    if a <= b then a else b
  }

  /**
   * Inside an open window that has already let `count` requests through, only the remaining
   * quota passes, however many requests arrive.
   */
  lemma {:induction false} WindowPassesRemainder(limits: Limits, user: Option<string>, times: seq<int>, count: int, start: int)
    requires user in limits && limits[user] == Window(count, start)
    requires forall i :: 0 <= i < |times| ==> times[i] - start < TimeWindow
    ensures RunGets(limits, user, times).0 == if count >= RateLimit then 0 else Min(|times|, RateLimit - count)
    decreases |times|
  {
    if times != [] {
      var (outcome, next) := Step(limits, UserGet(user), times[0]);
      if count >= RateLimit {
        assert next == limits;
        WindowPassesRemainder(next, user, times[1..], count, start);
      } else {
        assert next == limits[user := Window(count + 1, start)];
        WindowPassesRemainder(next, user, times[1..], count + 1, start);
      }
    }
  }

  /** A "user" with no entry gets at most two GETs through in the minute that starts with the first. */
  lemma AtMostTwoPerWindow(limits: Limits, user: Option<string>, times: seq<int>)
    requires user !in limits && |times| > 0
    requires forall i :: 0 <= i < |times| ==> times[i] - times[0] < TimeWindow
    ensures RunGets(limits, user, times).0 == Min(|times|, RateLimit)
  {
    var next := Step(limits, UserGet(user), times[0]).1;
    assert next[user] == Window(1, times[0]);
    WindowPassesRemainder(next, user, times[1..], 1, times[0]);
  }

  /** A GET after the window has run out starts a new window and passes. */
  lemma WindowExpires(limits: Limits, user: Option<string>, now: int)
    requires user in limits && limits[user].Window? && now - limits[user].startTime >= TimeWindow
    ensures Step(limits, UserGet(user), now) == (Next, limits[user := Window(1, now)])
  {
  }

  /** Rating the same movie twice: the second is refused with 429 and the map stays as the first left it. */
  lemma SecondRatingRefused(limits: Limits, req: Request, now: int, later: int)
    requires req.verb == "PATCH" && req.role == Some("premium_user")
    requires Step(limits, req, now).0 == Next
    ensures var after := Step(limits, req, now).1;
            Step(after, req, later) == (TooMany(AlreadyRated), after)
  {
  }
}
