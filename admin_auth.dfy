/**
 * The embeddable admin gate: the same credential check as the login page,
 * reporting success through the `onAuthenticated` callback, which the
 * model returns as a flag saying whether it was called.
 */
module Auth {
  import opened Wrappers
  import opened Storage
  import opened Credentials
  import Login

  class AdminAuth {
    var username: string
    var password: string
    var error: string

    constructor ()
      ensures username == "" && password == "" && error == ""
    {
      username := "";
      password := "";
      error := "";
    }

    /** The mount effect: the callback fires exactly when the flag reads
        'true'; nothing is written. */
    method Mount(storage: LocalStorage) returns (authenticated: bool)
      ensures authenticated <==> FlagSet(storage.items)
    {
      var isAuthenticated := storage.GetItem(AuthFlagKey);
      authenticated := isAuthenticated == Some(Str(AuthFlagValue));
    }

    /** The username input's `onChange`: the password is kept. */
    method SetUsername(value: string)
      modifies this
      ensures username == value && password == old(password) && error == old(error)
    {
      username := value;
    }

    /** The password input's `onChange`: the username is kept. */
    method SetPassword(value: string)
      modifies this
      ensures password == value && username == old(username) && error == old(error)
    {
      password := value;
    }

    /** `handleLogin`: on an exact match the flag is written and the callback
        fires; otherwise the error is shown, with no write and no callback. */
    method HandleLogin(storage: LocalStorage) returns (authenticated: bool)
      modifies this, storage
      ensures storage.items == AfterLogin(old(storage.items), username, password)
      ensures username == old(username) && password == old(password)
      ensures authenticated <==> Matches(username, password)
      ensures authenticated ==> error == old(error) && FlagSet(storage.items)
      ensures !authenticated ==> error == InvalidCredentialsMessage
    {
      if username == AdminUsername && password == AdminPassword {
        storage.SetItem(AuthFlagKey, Str(AuthFlagValue));
        authenticated := true;
      } else {
        error := InvalidCredentialsMessage;
        authenticated := false;
      }
    }

    /** The password input's `onKeyDown`: Enter is a login attempt, any
        other key does nothing. */
    method HandlePasswordKeyDown(key: string, storage: LocalStorage) returns (authenticated: bool)
      modifies this, storage
      ensures username == old(username) && password == old(password)
      ensures key == Login.EnterKey ==> storage.items == AfterLogin(old(storage.items), username, password)
      ensures authenticated <==> key == Login.EnterKey && Matches(username, password)
      ensures key == Login.EnterKey && !authenticated ==> error == InvalidCredentialsMessage
      ensures authenticated ==> error == old(error) && FlagSet(storage.items)
      ensures key != Login.EnterKey ==> error == old(error) && storage.items == old(storage.items)
    {
      if key == Login.EnterKey {
        authenticated := HandleLogin(storage);
      } else {
        authenticated := false;
      }
    }
  }
}
