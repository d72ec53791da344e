/**
 * The hard-coded admin credentials and the `adminAuthenticated` flag that
 * both login screens write and the admin page reads. This is the observable
 * client behaviour only; it is not an authentication design.
 */
module Credentials {
  import opened Wrappers
  import opened Storage

  const AdminUsername := "admin"
  const AdminPassword := "solar123"
  const AuthFlagKey := "adminAuthenticated"
  const AuthFlagValue := "true"
  const InvalidCredentialsMessage := "Invalid credentials"

  /** `username === 'admin' && password === 'solar123'`: exact, case-sensitive. */
  predicate Matches(username: string, password: string) {
    username == AdminUsername && password == AdminPassword
  }

  /** `localStorage.getItem('adminAuthenticated') === 'true'`. */
  predicate FlagSet(items: map<string, Value>) {
    AuthFlagKey in items && items[AuthFlagKey] == Str(AuthFlagValue)
  }

  /** The store after a login attempt: an exact match writes the flag, and
      anything else leaves the store as it was. */
  function AfterLogin(items: map<string, Value>, username: string, password: string): (r: map<string, Value>)
    ensures Matches(username, password) ==> r == items[AuthFlagKey := Str(AuthFlagValue)]
    ensures !Matches(username, password) ==> r == items
    ensures FlagSet(r) <==> Matches(username, password) || FlagSet(items)
  {
    if Matches(username, password) then items[AuthFlagKey := Str(AuthFlagValue)] else items
  }

  /** Logging out (removing the flag) is never read as authenticated, and a
      login right after it succeeds exactly on the right credentials. */
  lemma LogoutThenLogin(items: map<string, Value>, username: string, password: string)
    ensures !FlagSet(items - {AuthFlagKey})
    ensures FlagSet(AfterLogin(items - {AuthFlagKey}, username, password)) <==> Matches(username, password)
  {
  }

  /** Example values, beside the general `AfterLogin`: a differently
      cased name and a padded password both fail the exact check. */
  lemma MatchIsExact()
    ensures !Matches("Admin", AdminPassword)
    ensures !Matches(AdminUsername, "solar123 ")
  {
    assert "Admin"[0] != AdminUsername[0];
  }
}
