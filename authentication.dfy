/**
 * The `authenticate()` middleware: read the Authorization header and, when the credentials hold,
 * fill in the request's `user`, `role` and `authType`. Failures are swallowed; the request always
 * continues, and the mediator decides later whether a missing identity matters.
 */
module Authentication {
  import opened Common
  import opened Strings
  import opened Requests
  import opened Mediator

  const BearerPrefix := "Bearer "
  const BasicPrefix := "Basic "

  /** The identity fields of a request. */
  datatype Identity = Identity(user: Option<string>, role: Option<string>, authType: Option<AuthType>)

  /** The awaited account lookup of the basic path: an account with its role, `null`, or a thrown error. */
  datatype AccountLookup = Account(role: Option<string>) | NoAccount | LookupThrows

  /**
   * What authentication calls out to: token verification (claims, or None when it throws),
   * base64 decoding, and the account lookup and login of the basic path (login true when it
   * resolves, false when it throws), each applied to the arguments the source passes.
   */
  datatype Collaborators = Collaborators(
    verifyJwt: string -> Option<Claims>,
    decodeBase64: string -> string,
    findAccount: Option<string> -> AccountLookup,
    login: (AccountLookup, Option<string>) -> bool)

  /** The identity of a request that no step has touched. */
  const Anonymous := Identity(None, None, None)

  /** `jwtAuthentication`: the token's `sub` and `role` and "jwt" when it verifies; nothing otherwise. */
  function JwtIdentity(id: Identity, authHeader: string, c: Collaborators): Identity
  {
    match c.verifyJwt(Drop(authHeader, |BearerPrefix|))
    case None => id
    case Some(claims) => Identity(claims.sub, claims.role, Some(Jwt))
  }

  /** The decoded credentials split on ':'. */
  function CredentialParts(authHeader: string, c: Collaborators): (parts: seq<string>)
    ensures |parts| >= 1
  {
    Split(c.decodeBase64(Drop(authHeader, |BasicPrefix|)), ch => ch == ':')
  }

  /**
   * `basicAuthentication`: the configured administrator with its password gets an empty role;
   * any other name goes through the account lookup (keyed by the password part, as the source
   * calls it) and login, and fields are written one at a time, so an account that is `null`
   * leaves `user` written and the rest untouched.
   */
  function BasicIdentity(id: Identity, authHeader: string, cfg: Config, c: Collaborators): Identity
  {
    var parts := CredentialParts(authHeader, c);
    var name := parts[0];
    var password := if |parts| > 1 then Some(parts[1]) else None;
    if name == cfg.adminEmail then
      if password == Some(cfg.adminPassword) then Identity(Some(cfg.adminEmail), Some(""), Some(Basic)) else id
    else
      var account := c.findAccount(password);
      if account.LookupThrows? || !c.login(account, password) then id
      else if account.NoAccount? then id.(user := Some(name))
      else Identity(Some(name), account.role, Some(Basic))
  }

  /** `authenticate()`: dispatch on the header's prefix; any other header, or none, changes nothing. */
  function Authenticated(id: Identity, header: Option<string>, cfg: Config, c: Collaborators): Identity
  {
    match header
    case None => id
    case Some(h) =>
      if StartsWith(h, BearerPrefix) then JwtIdentity(id, h, c)
      else if StartsWith(h, BasicPrefix) then BasicIdentity(id, h, cfg, c)
      else id
  }

  /** The request object, whose identity fields the authentication step overwrites in place. */
  class HttpRequest {
    const verb: string
    const path: string
    const params: map<string, string>
    const body: map<string, string>
    const header: Option<string>
    var user: Option<string>
    var role: Option<string>
    var authType: Option<AuthType>

    constructor (verb: string, path: string, params: map<string, string>, body: map<string, string>, header: Option<string>)
      ensures this.verb == verb && this.path == path && this.params == params && this.body == body
      ensures this.header == header
      ensures CurrentIdentity() == Anonymous
    {
      this.verb, this.path, this.params, this.body, this.header := verb, path, params, body, header;
      user, role, authType := None, None, None;
    }

    function CurrentIdentity(): Identity
      reads this
    {
      Identity(user, role, authType)
    }

    /** The request as the policy tables see it. */
    function View(): (r: Request)
      reads this
      ensures r.verb == verb && r.path == path && r.user == user && r.role == role && r.authType == authType
    {
      Request(verb, path, params, body, user, role, authType)
    }

    method Authenticate(cfg: Config, c: Collaborators)
      modifies this
      ensures CurrentIdentity() == Authenticated(old(CurrentIdentity()), header, cfg, c)
    {
      if header.Some? {
        var authHeader := header.value;
        if StartsWith(authHeader, BearerPrefix) {
          JwtAuthentication(authHeader, c);
        } else if StartsWith(authHeader, BasicPrefix) {
          BasicAuthentication(authHeader, cfg, c);
        }
      }
    }

    method JwtAuthentication(authHeader: string, c: Collaborators)
      modifies this
      ensures CurrentIdentity() == JwtIdentity(old(CurrentIdentity()), authHeader, c)
    {
      var token := Drop(authHeader, |BearerPrefix|);
      var payload := c.verifyJwt(token);
      if payload.Some? {
        user := payload.value.sub;
        role := payload.value.role;
        authType := Some(Jwt);
      }
    }

    method BasicAuthentication(authHeader: string, cfg: Config, c: Collaborators)
      modifies this
      ensures CurrentIdentity() == BasicIdentity(old(CurrentIdentity()), authHeader, cfg, c)
    {
      var parts := CredentialParts(authHeader, c);
      var password := if |parts| > 1 then Some(parts[1]) else None;
      if parts[0] == cfg.adminEmail {
        if password == Some(cfg.adminPassword) {
          user := Some(cfg.adminEmail);
          role := Some("");
          authType := Some(Basic);
        }
      } else {
        var account := c.findAccount(password);
        if account.LookupThrows? || !c.login(account, password) {
          return;
        }
        user := Some(parts[0]);
        if account.NoAccount? {
          return;
        }
        role := account.role;
        authType := Some(Basic);
      }
    }
  }

  /** No header, or a header with neither prefix, leaves the identity as it was. */
  lemma OtherHeadersIgnored(id: Identity, header: Option<string>, cfg: Config, c: Collaborators)
    requires header.None? || (!StartsWith(header.value, BearerPrefix) && !StartsWith(header.value, BasicPrefix))
    ensures Authenticated(id, header, cfg, c) == id
  {
  }

  /** A bearer token that verifies sets the identity to its claims with "jwt"; one that does not changes nothing. */
  lemma BearerToken(id: Identity, token: string, cfg: Config, c: Collaborators)
    ensures var claims := c.verifyJwt(token);
            Authenticated(id, Some(BearerPrefix + token), cfg, c)
              == if claims.Some? then Identity(claims.value.sub, claims.value.role, Some(Jwt)) else id
  {
    assert StartsWith(BearerPrefix + token, BearerPrefix);
    assert Drop(BearerPrefix + token, |BearerPrefix|) == token;
  }

  /** `name:password` with no ':' inside either splits into exactly those two. */
  lemma {:induction false} SplitPair(name: string, password: string)
    requires forall i :: 0 <= i < |name| ==> name[i] != ':'
    requires forall i :: 0 <= i < |password| ==> password[i] != ':'
    ensures Split(name + ":" + password, ch => ch == ':') == [name, password]
    decreases |name|
  {
    var isColon := (ch: char) => ch == ':';
    var s := name + ":" + password;
    if name == [] {
      assert s == [':'] + password;
      assert s[1..] == password;
      SplitWithoutSeparator(password, isColon);
    } else {
      assert s[1..] == name[1..] + ":" + password;
      SplitPair(name[1..], password);
      assert [name[0]] + name[1..] == name;
    }
  }

  /** The configured administrator's credentials authenticate as that email with an empty role and "basic". */
  lemma AdministratorCredentials(id: Identity, encoded: string, cfg: Config, c: Collaborators)
    requires forall i :: 0 <= i < |cfg.adminEmail| ==> cfg.adminEmail[i] != ':'
    requires forall i :: 0 <= i < |cfg.adminPassword| ==> cfg.adminPassword[i] != ':'
    requires c.decodeBase64(encoded) == cfg.adminEmail + ":" + cfg.adminPassword
    ensures Authenticated(id, Some(BasicPrefix + encoded), cfg, c) == Identity(Some(cfg.adminEmail), Some(""), Some(Basic))
  {
    var h := BasicPrefix + encoded;
    assert !StartsWith(h, BearerPrefix) by { assert h[1] == 'a' && BearerPrefix[1] == 'e'; }
    assert StartsWith(h, BasicPrefix);
    assert Drop(h, |BasicPrefix|) == encoded;
    SplitPair(cfg.adminEmail, cfg.adminPassword);
  }

  /** The administrator's email with any other password changes nothing. */
  lemma AdministratorWrongPassword(id: Identity, encoded: string, password: string, cfg: Config, c: Collaborators)
    requires forall i :: 0 <= i < |cfg.adminEmail| ==> cfg.adminEmail[i] != ':'
    requires forall i :: 0 <= i < |password| ==> password[i] != ':'
    requires password != cfg.adminPassword
    requires c.decodeBase64(encoded) == cfg.adminEmail + ":" + password
    ensures Authenticated(id, Some(BasicPrefix + encoded), cfg, c) == id
  {
    var h := BasicPrefix + encoded;
    assert !StartsWith(h, BearerPrefix) by { assert h[1] == 'a' && BearerPrefix[1] == 'e'; }
    assert Drop(h, |BasicPrefix|) == encoded;
    SplitPair(cfg.adminEmail, password);
  }

  /**
   * For any other name, nothing at all changes unless both awaited calls succeeded, and the scheme
   * becomes "basic" only when the lookup returned an account and login resolved. Conversely, an
   * account and a resolved login give that name, the account's role and "basic"; a `null`
   * account with a resolved login writes the name alone.
   */
  lemma OtherBasicNeedsBothCalls(id: Identity, authHeader: string, cfg: Config, c: Collaborators)
    requires StartsWith(authHeader, BasicPrefix)
    requires CredentialParts(authHeader, c)[0] != cfg.adminEmail
    ensures var parts := CredentialParts(authHeader, c);
            var password := if |parts| > 1 then Some(parts[1]) else None;
            var account := c.findAccount(password);
            var after := Authenticated(id, Some(authHeader), cfg, c);
            && (after != id ==> !account.LookupThrows? && c.login(account, password))
            && (after.authType == Some(Basic) && id.authType != Some(Basic) ==> account.Account? && c.login(account, password))
            && (account.Account? && c.login(account, password) ==> after == Identity(Some(parts[0]), account.role, Some(Basic)))
            && (account.NoAccount? && c.login(account, password) ==> after == id.(user := Some(parts[0])))
  {
    assert !StartsWith(authHeader, BearerPrefix) by { assert authHeader[1] == 'a' && BearerPrefix[1] == 'e'; }
  }

  /**
   * Two phases: a bearer token that fails to verify leaves a fresh request without a scheme, so
   * the mediator answers 401 on any entry that requires jwt.
   */
  lemma ForgedTokenIsUnauthenticated(paths: PolicyTable, verb: string, path: string,
                                     params: map<string, string>, body: map<string, string>,
                                     token: string, cfg: Config, c: Collaborators)
    requires c.verifyJwt(token).None?
    requires verb in paths
    requires var e := paths[verb];
             var probe := Request(verb, path, params, body, None, None, None);
             e.authorization.Some? && e.authentication.Some? && e.authentication.value(probe) == Requires(Jwt)
    ensures var id := Authenticated(Anonymous, Some(BearerPrefix + token), cfg, c);
            Auth(paths, Request(verb, path, params, body, id.user, id.role, id.authType)) == Throw(Unauthenticated)
  {
    BearerToken(Anonymous, token, cfg, c);
  }
}
