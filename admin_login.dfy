/**
 * The admin login page: two credential fields and an error line. The
 * right credentials write the `adminAuthenticated` flag and open the
 * dashboard; anything else shows 'Invalid credentials'.
 */
module Login {
  import opened Wrappers
  import opened Storage
  import opened Credentials

  const DashboardRoute := "/admin"
  const EnterKey := "Enter"

  class AdminLogin {
    var username: string
    var password: string
    var error: string

    constructor ()
      ensures username == "" && password == "" && error == ""
    {
      username := "";
      password := "";
      error := "";
    }

    /** The username input's `onChange`: the password is kept. */
    method SetUsername(value: string)
      modifies this
      ensures username == value && password == old(password) && error == old(error)
    {
      username := value;
    }

    /** The password input's `onChange`: the username is kept. */
    method SetPassword(value: string)
      modifies this
      ensures password == value && username == old(username) && error == old(error)
    {
      password := value;
    }

    /** `handleLogin`: on an exact match the flag is written and the
        dashboard opens (the error line is left as it was); otherwise the
        error is shown, the store is untouched and nothing opens. */
    method HandleLogin(storage: LocalStorage) returns (navigateTo: Option<string>)
      modifies this, storage
      ensures storage.items == AfterLogin(old(storage.items), username, password)
      ensures username == old(username) && password == old(password)
      ensures Matches(username, password) ==>
                navigateTo == Some(DashboardRoute) && error == old(error) && FlagSet(storage.items)
      ensures !Matches(username, password) ==>
                navigateTo == None && error == InvalidCredentialsMessage
    {
      if username == AdminUsername && password == AdminPassword {
        storage.SetItem(AuthFlagKey, Str(AuthFlagValue));
        navigateTo := Some(DashboardRoute);
      } else {
        error := InvalidCredentialsMessage;
        navigateTo := None;
      }
    }

    /** The password input's `onKeyDown`: Enter is a login attempt, any
        other key does nothing. */
    method HandlePasswordKeyDown(key: string, storage: LocalStorage) returns (navigateTo: Option<string>)
      modifies this, storage
      ensures username == old(username) && password == old(password)
      ensures key == EnterKey ==> storage.items == AfterLogin(old(storage.items), username, password)
      ensures key == EnterKey && Matches(username, password) ==>
                navigateTo == Some(DashboardRoute) && error == old(error)
      ensures key == EnterKey && !Matches(username, password) ==>
                navigateTo == None && error == InvalidCredentialsMessage
      ensures key != EnterKey ==>
                navigateTo == None && error == old(error) && storage.items == old(storage.items)
    {
      if key == EnterKey {
        navigateTo := HandleLogin(storage);
      } else {
        navigateTo := None;
      }
    }
  }
}
