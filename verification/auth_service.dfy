// The mock authentication service: two built-in accounts and one stored
// "current user" cell that login fills and logout empties.

module AuthService {
  import opened Common

  datatype User = User(id: int, username: string, password: string, role: string, name: string, email: string)

  /** The built-in accounts. */
  const Users: seq<User> := [
    User(1, "tejas", "tejas123", "user", "Tejas User", "tejas@example.com"),
    User(2, "admin", "admin123", "admin", "Admin User", "admin@example.com")
  ]

  const InvalidCredentialsMessage: string := "Invalid username or password"
  const NoAccountMessage: string := "No account found with that email address"

  predicate HasCredentials(u: User, username: string, password: string) {
    u.username == username && u.password == password
  }

  /** `users.find(u => u.username === username && u.password === password)` */
  function FindByCredentials(users: seq<User>, username: string, password: string): (r: Option<User>)
    ensures r.Some? ==> r.value in users && HasCredentials(r.value, username, password)
    ensures r.None? <==> forall u :: u in users ==> !HasCredentials(u, username, password)
    ensures r.Some? ==> exists i :: 0 <= i < |users| && users[i] == r.value
                                     && forall j :: 0 <= j < i ==> !HasCredentials(users[j], username, password)
  {
    match FindFirst(users, (u: User) => HasCredentials(u, username, password))
    case Some(i) => Some(users[i])
    case None => None
  }

  /**
   * `resetPassword(email)`: it succeeds exactly when some account has that
   * address, and touches no state.
   */
  function ResetPassword(email: string): (r: Result<bool, string>)
    ensures r.Success? <==> exists u :: u in Users && u.email == email
    ensures r.Success? ==> r.value
    ensures r.Failure? ==> r.error == NoAccountMessage
  {
    match FindFirst(Users, (u: User) => u.email == email)
    case Some(_) => Success(true)
    case None => Failure(NoAccountMessage)
  }

  /** The admin account logs in with its own password. */
  lemma AdminCanLogIn()
    ensures FindByCredentials(Users, "admin", "admin123") == Some(Users[1])
  {
    assert !HasCredentials(Users[0], "admin", "admin123") by {
      assert Users[0].username[0] == 't';
    }
  }

  /** A user name with another account's password is refused. */
  lemma MixedCredentialsRefused()
    ensures FindByCredentials(Users, "tejas", "admin123") == None
  {
    assert Users[0].password != "admin123" by {
      assert Users[0].password[0] == 't';
    }
    assert Users[1].username != "tejas" by {
      assert Users[1].username[0] == 'a';
    }
  }

  /** The browser's stored `user` entry. */
  class AuthStore {
    var stored: Option<User>

    constructor(stored: Option<User>)
      ensures this.stored == stored
    {
      this.stored := stored;
    }

    /** `getCurrentUser`: the stored user, or none when nothing is stored.
        `Login` and `Logout` state what it returns after each of them. */
    function CurrentUser(): (r: Option<User>)
      reads this
      ensures r.Some? <==> stored.Some?
      ensures r.Some? ==> r.value == stored.value
    {
      stored
    }

    /** `isAuthenticated` */
    predicate IsAuthenticated()
      reads this
      ensures IsAuthenticated() <==> CurrentUser().Some?
    {
      stored.Some?
    }

    /** `hasRole(role)` */
    predicate HasRole(role: string)
      reads this
      ensures HasRole(role) ==> IsAuthenticated()
      ensures HasRole(role) <==> CurrentUser().Some? && CurrentUser().value.role == role
    {
      stored.Some? && stored.value.role == role
    }

    /** `login(username, password)`: it resolves with the account, or rejects. */
    method Login(username: string, password: string) returns (r: Result<User, string>)
      modifies this
      ensures r.Success? <==> exists u :: u in Users && HasCredentials(u, username, password)
      ensures r.Success? ==> r.value in Users && HasCredentials(r.value, username, password)
      ensures r.Success? ==> stored == Some(r.value) && CurrentUser() == Some(r.value)
      ensures r.Failure? ==> r.error == InvalidCredentialsMessage && stored == old(stored)
    {
      var found := FindByCredentials(Users, username, password);
      if found.Some? {
        stored := found;
        r := Success(found.value);
      } else {
        r := Failure(InvalidCredentialsMessage);
      }
    }

    /** `logout` */
    method Logout()
      modifies this
      ensures CurrentUser() == None && !IsAuthenticated()
      ensures forall role :: !HasRole(role)
    {
      stored := None;
    }
  }
}
