/**
 * `AccountService`: the accounts collection keyed by email, with creation, role and password
 * changes, blocking, deletion and login. bcrypt is an ideal hash (a digest matches exactly the
 * secret it was made from); the random salt and the clock are parameters.
 */
module Accounts {
  import opened Common
  import opened Errors
  import opened Requests
  import opened Expiration

  /** The cost factor every `hashSync` call passes. */
  const SaltRounds := 10

  /** A bcrypt digest: cost, salt and the secret it was computed from. */
  datatype Digest = Digest(cost: nat, salt: nat, secret: string)

  /** `bcrypt.hashSync(plain, 10)` with the given salt. */
  function Hash(plain: string, salt: nat): (d: Digest)
    ensures d.cost == SaltRounds
    ensures Matches(plain, d) && forall other :: other != plain ==> !Matches(other, d)
  {
    Digest(SaltRounds, salt, plain)
  }

  /** `bcrypt.compareSync(plain, d)`. */
  predicate Matches(plain: string, d: Digest)
  {
    d.secret == plain
  }

  /** The account object a caller hands in: a plain-text password and whatever role it carries. */
  datatype NewAccount = NewAccount(email: string, username: Option<string>, password: string, role: Option<string>)

  /** A stored record. */
  datatype Account = Account(email: string, username: Option<string>, role: Option<string>,
                             blocked: bool, password: Digest, expiration: int)

  /** The collection, keyed by the `email` field. */
  type Accounts = map<string, Account>

  const AccountExists := Plain("Account already exists")
  const AccountNotFound := Plain("Account not found")
  const PasswordIsTheSame := Plain("Password is the same")
  const InvalidPassword := Plain("Invalid password")
  const SessionExpired := Plain("Session expired")

  /** Every record is stored under its own email. */
  ghost predicate Keyed(accounts: Accounts)
  {
    forall e :: e in accounts ==> accounts[e].email == e
  }

  /** `Date.now() + getExpirationIn()`. */
  function ExpiresAt(now: int): (t: int)
    ensures t == now + 1000
  {
    now + GetExpirationIn().value
  }

  /** `#prepareAccountForInsertion`: the fields kept, the password hashed, unblocked, expiring a second later. */
  function Prepare(input: NewAccount, salt: nat, now: int): (a: Account)
    ensures a.email == input.email && a.username == input.username && a.role == input.role
    ensures !a.blocked && Matches(input.password, a.password) && a.password.cost == SaltRounds
    ensures a.expiration == now + 1000
  {
    Account(input.email, input.username, input.role, false, Hash(input.password, salt), ExpiresAt(now))
  }

  /** `#createAccount`: refuse a taken email, otherwise insert the prepared record and return it. */
  function CreateStep(accounts: Accounts, input: NewAccount, salt: nat, now: int): (r: (Result<Account>, Accounts))
    ensures r.0.Err? <==> input.email in accounts
    ensures r.0.Err? ==> r == (Err(AccountExists), accounts)
    ensures r.0.Ok? ==> r.0.value == Prepare(input, salt, now)
    ensures r.1.Keys == accounts.Keys + {input.email}
    ensures forall e :: e in accounts ==> r.1[e] == accounts[e]
  {
    if input.email in accounts then (Err(AccountExists), accounts)
    else
      var account := Prepare(input, salt, now);
      (Ok(account), accounts[input.email := account])
  }

  /** `setRole`: the role is written as given, with no check of its value. */
  function SetRoleStep(accounts: Accounts, email: string, role: string): (r: (Result<()>, Accounts))
    ensures r.0.Err? <==> email !in accounts
    ensures r.0.Err? ==> r == (Err(AccountNotFound), accounts)
    ensures r.1.Keys == accounts.Keys
    ensures forall e :: e in accounts && e != email ==> r.1[e] == accounts[e]
    ensures email in accounts ==> r.1[email].role == Some(role)
                                  && r.1[email].(role := accounts[email].role) == accounts[email]
  {
    if email !in accounts then (Err(AccountNotFound), accounts)
    else (Ok(()), accounts[email := accounts[email].(role := Some(role))])
  }

  /** `updatePassword`: refuse an unknown email, then a password equal to the stored one; otherwise rehash. */
  function UpdatePasswordStep(accounts: Accounts, email: string, newPassword: string, salt: nat): (r: (Result<()>, Accounts))
    ensures r.0.Err? ==> r.1 == accounts
    ensures email !in accounts ==> r.0 == Err(AccountNotFound)
    ensures email in accounts && Matches(newPassword, accounts[email].password) ==> r.0 == Err(PasswordIsTheSame)
    ensures r.0.Ok? <==> email in accounts && !Matches(newPassword, accounts[email].password)
    ensures r.1.Keys == accounts.Keys
    ensures forall e :: e in accounts && e != email ==> r.1[e] == accounts[e]
    ensures r.0.Ok? ==> Matches(newPassword, r.1[email].password)
                        && r.1[email].(password := accounts[email].password) == accounts[email]
  {
    if email !in accounts then (Err(AccountNotFound), accounts)
    else if Matches(newPassword, accounts[email].password) then (Err(PasswordIsTheSame), accounts)
    else (Ok(()), accounts[email := accounts[email].(password := Hash(newPassword, salt))])
  }

  /** `blockUnblockAccount`: flip `blocked`. */
  function ToggleBlockStep(accounts: Accounts, email: string): (r: (Result<()>, Accounts))
    ensures r.0.Err? <==> email !in accounts
    ensures r.0.Err? ==> r == (Err(AccountNotFound), accounts)
    ensures r.1.Keys == accounts.Keys
    ensures forall e :: e in accounts && e != email ==> r.1[e] == accounts[e]
    ensures email in accounts ==> r.1[email].blocked != accounts[email].blocked
                                  && r.1[email].(blocked := accounts[email].blocked) == accounts[email]
  {
    if email !in accounts then (Err(AccountNotFound), accounts)
    else (Ok(()), accounts[email := accounts[email].(blocked := !accounts[email].blocked)])
  }

  /** `deleteAccount`: remove the record with that email. */
  function DeleteStep(accounts: Accounts, email: string): (r: (Result<()>, Accounts))
    ensures r.0.Err? <==> email !in accounts
    ensures r.0.Err? ==> r == (Err(AccountNotFound), accounts)
    ensures r.1.Keys == accounts.Keys - {email}
    ensures forall e :: e in r.1 ==> r.1[e] == accounts[e]
  {
    if email !in accounts then (Err(AccountNotFound), accounts)
    else (Ok(()), accounts - {email})
  }

  /**
   * `login`: not found, then a wrong password, then expiry. The record is prepared afresh before
   * the checks, so expiry compares the check time with the preparation time plus a second and
   * never reads the stored `expiration`. The token carries the username as subject and the role.
   */
  function LoginStep(accounts: Accounts, email: string, password: string, prepared: int, checked: int): (r: Result<Claims>)
    ensures email !in accounts ==> r == Err(AccountNotFound)
    ensures email in accounts && !Matches(password, accounts[email].password) ==> r == Err(InvalidPassword)
    ensures email in accounts && Matches(password, accounts[email].password) && checked > prepared + 1000
            ==> r == Err(SessionExpired)
    ensures r.Ok? <==> email in accounts && Matches(password, accounts[email].password) && checked <= prepared + 1000
    ensures r.Ok? ==> r.value == Claims(accounts[email].username, accounts[email].role)
  {
    if email !in accounts then Err(AccountNotFound)
    else
      var account := accounts[email];
      if !Matches(password, account.password) then Err(InvalidPassword)
      else if checked > ExpiresAt(prepared) then Err(SessionExpired)
      else Ok(Claims(account.username, account.role))
  }

  /** The service over its collection. */
  class AccountStore {
    var accounts: Accounts

    ghost predicate Valid()
      reads this
    {
      Keyed(accounts)
    }

    constructor (accounts: Accounts)
      requires Keyed(accounts)
      ensures Valid() && this.accounts == accounts
    {
      this.accounts := accounts;
    }

    /** `getAccountByEmail`: the record, or `null`. */
    method GetAccountByEmail(email: string) returns (r: Option<Account>)
      ensures r.Some? <==> email in accounts
      ensures r.Some? ==> r.value == accounts[email]
    {
      if email in accounts {
        r := Some(accounts[email]);
      } else {
        r := None;
      }
    }

    /** `addUserAccount`: the role is forced to "user". */
    method AddUserAccount(account: NewAccount, salt: nat, now: int) returns (r: Result<Account>)
      requires Valid()
      modifies this
      ensures Valid()
      ensures (r, accounts) == CreateStep(old(accounts), account.(role := Some("user")), salt, now)
    {
      r := CreateAccount(account.(role := Some("user")), salt, now);
    }

    /** `addAdminAccount`: the role is forced to "admin". */
    method AddAdminAccount(account: NewAccount, salt: nat, now: int) returns (r: Result<Account>)
      requires Valid()
      modifies this
      ensures Valid()
      ensures (r, accounts) == CreateStep(old(accounts), account.(role := Some("admin")), salt, now)
    {
      r := CreateAccount(account.(role := Some("admin")), salt, now);
    }

    method CreateAccount(account: NewAccount, salt: nat, now: int) returns (r: Result<Account>)
      requires Valid()
      modifies this
      ensures Valid()
      ensures (r, accounts) == CreateStep(old(accounts), account, salt, now)
    {
      var existing := GetAccountByEmail(account.email);
      if existing.Some? {
        return Err(AccountExists);
      }
      var newAccount := Prepare(account, salt, now);
      accounts := accounts[account.email := newAccount];
      r := Ok(newAccount);
    }

    method SetRole(email: string, role: string) returns (r: Result<()>)
      requires Valid()
      modifies this
      ensures Valid()
      ensures (r, accounts) == SetRoleStep(old(accounts), email, role)
    {
      var account := GetAccountByEmail(email);
      if account.None? {
        return Err(AccountNotFound);
      }
      accounts := accounts[email := account.value.(role := Some(role))];
      r := Ok(());
    }

    method UpdatePassword(email: string, newPassword: string, salt: nat) returns (r: Result<()>)
      requires Valid()
      modifies this
      ensures Valid()
      ensures (r, accounts) == UpdatePasswordStep(old(accounts), email, newPassword, salt)
    {
      var account := GetAccountByEmail(email);
      if account.None? {
        return Err(AccountNotFound);
      }
      if Matches(newPassword, account.value.password) {
        return Err(PasswordIsTheSame);
      }
      accounts := accounts[email := account.value.(password := Hash(newPassword, salt))];
      r := Ok(());
    }

    method BlockUnblockAccount(email: string) returns (r: Result<()>)
      requires Valid()
      modifies this
      ensures Valid()
      ensures (r, accounts) == ToggleBlockStep(old(accounts), email)
    {
      var account := GetAccountByEmail(email);
      if account.None? {
        return Err(AccountNotFound);
      }
      accounts := accounts[email := account.value.(blocked := !account.value.blocked)];
      r := Ok(());
    }

    method DeleteAccount(email: string) returns (r: Result<()>)
      requires Valid()
      modifies this
      ensures Valid()
      ensures (r, accounts) == DeleteStep(old(accounts), email)
    {
      var account := GetAccountByEmail(email);
      if account.None? {
        return Err(AccountNotFound);
      }
      accounts := accounts - {email};
      r := Ok(());
    }

    /** `login`, with the two clock readings it takes: at preparation and at the expiry check. */
    method Login(email: string, password: string, prepared: int, checked: int) returns (r: Result<Claims>)
      ensures r == LoginStep(accounts, email, password, prepared, checked)
    {
      var account := GetAccountByEmail(email);
      if account.None? {
        return Err(AccountNotFound);
      }
      // The source re-prepares the stored record, hashing its digest again; only the username,
      // role and the fresh expiration of the result are read, so the secret and salt are immaterial.
      var toBeChecked := Prepare(NewAccount(account.value.email, account.value.username, "", account.value.role), 0, prepared);
      if !Matches(password, account.value.password) {
        return Err(InvalidPassword);
      }
      if checked > toBeChecked.expiration {
        return Err(SessionExpired);
      }
      r := Ok(Claims(toBeChecked.username, toBeChecked.role));
    }
  }

  /** Whatever role the caller's object carried, the stored record has the forced one. */
  lemma RoleForced(accounts: Accounts, input: NewAccount, role: string, salt: nat, now: int)
    requires input.email !in accounts
    ensures var (r, after) := CreateStep(accounts, input.(role := Some(role)), salt, now);
            r.Ok? && after[input.email].role == Some(role) && r.value == after[input.email]
  {
  }

  /** Each step keeps every record under its own email. */
  lemma StepsKeepKeyed(accounts: Accounts, input: NewAccount, email: string, text: string, salt: nat, now: int)
    requires Keyed(accounts)
    ensures Keyed(CreateStep(accounts, input, salt, now).1)
    ensures Keyed(SetRoleStep(accounts, email, text).1)
    ensures Keyed(UpdatePasswordStep(accounts, email, text, salt).1)
    ensures Keyed(ToggleBlockStep(accounts, email).1)
    ensures Keyed(DeleteStep(accounts, email).1)
  {
  }

  /** After a creation, a second creation with the same email fails and leaves the collection alone. */
  lemma DuplicateRefused(accounts: Accounts, first: NewAccount, second: NewAccount, salt: nat, salt2: nat, now: int, later: int)
    requires second.email == first.email
    ensures var after := CreateStep(accounts, first, salt, now).1;
            CreateStep(after, second, salt2, later) == (Err(AccountExists), after)
  {
  }

  /** Blocking twice restores the collection. */
  lemma ToggleTwiceRestores(accounts: Accounts, email: string)
    ensures var (r, once) := ToggleBlockStep(accounts, email);
            ToggleBlockStep(once, email).1 == accounts
  {
    if email in accounts {
      var once := ToggleBlockStep(accounts, email).1;
      assert ToggleBlockStep(once, email).1[email] == accounts[email];
    }
  }

  /** Right after a password change, setting the same password again is refused. */
  lemma SamePasswordTwice(accounts: Accounts, email: string, newPassword: string, salt: nat, salt2: nat)
    requires UpdatePasswordStep(accounts, email, newPassword, salt).0.Ok?
    ensures var after := UpdatePasswordStep(accounts, email, newPassword, salt).1;
            UpdatePasswordStep(after, email, newPassword, salt2) == (Err(PasswordIsTheSame), after)
  {
  }

  /** A fresh account logs in with its own password, and the token names its username and role. */
  lemma CreateThenLogin(accounts: Accounts, input: NewAccount, salt: nat, now: int, prepared: int, checked: int)
    requires input.email !in accounts
    requires checked <= prepared + 1000
    ensures var after := CreateStep(accounts, input, salt, now).1;
            LoginStep(after, input.email, input.password, prepared, checked) == Ok(Claims(input.username, input.role))
  {
  }

  /** Login never reads the stored expiration: changing it changes nothing. */
  lemma LoginIgnoresStoredExpiration(accounts: Accounts, email: string, password: string, prepared: int, checked: int, expiration: int)
    requires email in accounts
    ensures LoginStep(accounts[email := accounts[email].(expiration := expiration)], email, password, prepared, checked)
            == LoginStep(accounts, email, password, prepared, checked)
  {
  }

  /** A blocked account logs in like any other: login does not read `blocked`. */
  lemma LoginIgnoresBlocked(accounts: Accounts, email: string, password: string, prepared: int, checked: int)
    requires email in accounts
    ensures var after := ToggleBlockStep(accounts, email).1;
            LoginStep(after, email, password, prepared, checked) == LoginStep(accounts, email, password, prepared, checked)
  {
  }
}
