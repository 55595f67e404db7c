/** The Flask variant (app.py): a process-wide list of user records that
    signup appends to, with an exact, case-sensitive username match, the
    password kept and compared in plain text, and no length rules. */
module InMemory {
  import opened Common

  /** One entry of `users_db`; `passwordHash` holds the plain password, as
      the route stores it. */
  datatype User = User(username: string, passwordHash: string, phone: string)

  datatype SignupBody = SignupBody(username: Option<string>, password: Option<string>, phone: Option<string>)
  datatype LoginBody = LoginBody(username: Option<string>, password: Option<string>)

  /** Position of the first entry named exactly `username`. */
  function IndexOf(users: seq<User>, username: string): (r: Option<nat>)
    ensures r.Some? ==> r.value < |users| && users[r.value].username == username
    ensures r.Some? ==> forall j :: 0 <= j < r.value ==> users[j].username != username
    ensures r.None? <==> forall i :: 0 <= i < |users| ==> users[i].username != username
  {
    if users == [] then None
    else if users[0].username == username then Some(0)
    else match IndexOf(users[1..], username)
      case None => None
      case Some(k) => Some(k + 1)
  }

  /** The entry `find_user` returns. */
  function Lookup(users: seq<User>, username: string): Option<User> {
    match IndexOf(users, username)
    case None => None
    case Some(i) => Some(users[i])
  }

  /** No two entries share a username (compared exactly). */
  ghost predicate Distinct(users: seq<User>) {
    forall i, j :: 0 <= i < j < |users| ==> users[i].username != users[j].username
  }

  /** Appending an entry whose name is not yet taken keeps names distinct. */
  lemma AppendFresh(users: seq<User>, u: User)
    requires Distinct(users) && IndexOf(users, u.username).None?
    ensures Distinct(users + [u])
  {
  }

  /** With distinct names, the entry found is the only one with that name. */
  lemma LookupUnique(users: seq<User>, username: string, i: nat)
    requires Distinct(users) && i < |users| && users[i].username == username
    ensures Lookup(users, username) == Some(users[i])
  {
  }

  /** The reply of the login route, as a function of the list. */
  function LoginReply(users: seq<User>, b: LoginBody): (r: Response)
    // 400 exactly when a field is missing
    ensures r.status == 400 <==> !(Present(b.username) && Present(b.password))
    // 200 exactly when an entry with that exact name holds that exact password
    ensures r.status == 200 <==>
              Present(b.username) && Present(b.password)
              && Lookup(users, b.username.value).Some?
              && Lookup(users, b.username.value).value.passwordHash == b.password.value
    // every other reply is the one 401, unknown user or wrong password alike
    ensures r.status != 400 && r.status != 200 ==> r == Response(401, Error(MSG_INVALID_CREDENTIALS))
    ensures r.status == 200 ==> r.body == Message(MSG_LOGIN_OK)
  {
    if !Present(b.username) || !Present(b.password) then Response(400, Error(MSG_MISSING_LOGIN))
    else match Lookup(users, b.username.value)
      case None => Response(401, Error(MSG_INVALID_CREDENTIALS))
      case Some(user) =>
        if user.passwordHash == b.password.value then Response(200, Message(MSG_LOGIN_OK))
        else Response(401, Error(MSG_INVALID_CREDENTIALS))
  }

  /** `users_db` and the helpers and routes that use it. */
  class UserDb {
    var users: seq<User>

    constructor ()
      ensures users == [] && Valid()
    {
      users := [];
    }

    ghost predicate Valid()
      reads this
    {
      Distinct(users)
    }

    /** `find_user`: scan from the front, return the first exact match. */
    method FindUser(username: string) returns (r: Option<User>)
      ensures r == Lookup(users, username)
      ensures r.Some? ==> r.value in users && r.value.username == username
      ensures r.None? ==> forall i :: 0 <= i < |users| ==> users[i].username != username
    {
      var i := 0;
      while i < |users|
        invariant 0 <= i <= |users|
        invariant forall j :: 0 <= j < i ==> users[j].username != username
      {
        if users[i].username == username {
          return Some(users[i]);
        }
        i := i + 1;
      }
      return None;
    }

    /** `add_user`: refuse a taken name, otherwise append one entry. */
    method AddUser(username: string, passwordHash: string, phone: string) returns (added: bool)
      modifies this
      ensures added <==> IndexOf(old(users), username).None?
      ensures users == if added then old(users) + [User(username, passwordHash, phone)] else old(users)
      ensures old(Valid()) ==> Valid()
    {
      var existing := FindUser(username);
      if existing.Some? {
        return false;
      }
      if old(Valid()) {
        AppendFresh(users, User(username, passwordHash, phone));
      }
      users := users + [User(username, passwordHash, phone)];
      return true;
    }

    /** The signup route: presence check, then `add_user` with the plain
      password; no length rules and no case folding. */
    method Signup(b: SignupBody) returns (resp: Response)
      modifies this
      ensures !(Present(b.username) && Present(b.password) && Present(b.phone)) ==>
                resp == Response(400, Error(MSG_MISSING_SIGNUP)) && users == old(users)
      ensures resp.status == 201 <==>
                Present(b.username) && Present(b.password) && Present(b.phone)
                && IndexOf(old(users), b.username.value).None?
      ensures resp.status == 201 ==>
                resp.body == Message(MSG_SIGNUP_OK)
                && users == old(users) + [User(b.username.value, b.password.value, b.phone.value)]
      ensures resp.status != 201 ==> users == old(users)
      ensures (Present(b.username) && Present(b.password) && Present(b.phone)
               && IndexOf(old(users), b.username.value).Some?) ==>
                resp == Response(409, Error(MSG_USER_EXISTS))
      ensures old(Valid()) ==> Valid()
    {
      if !Present(b.username) || !Present(b.password) || !Present(b.phone) {
        return Response(400, Error(MSG_MISSING_SIGNUP));
      }
      var success := AddUser(b.username.value, b.password.value, b.phone.value);
      if success {
        resp := Response(201, Message(MSG_SIGNUP_OK));
      } else {
        resp := Response(409, Error(MSG_USER_EXISTS));
      }
    }

    /** The login route: reads the list, never changes it. */
    method Login(b: LoginBody) returns (resp: Response)
      ensures resp == LoginReply(users, b)
      ensures resp.status == 200 ==> exists i :: 0 <= i < |users| && users[i].username == b.username.value
                                                && users[i].passwordHash == b.password.value
      // with distinct names: 200 exactly when the one entry with that name holds the password
      ensures Valid() && Present(b.username) && Present(b.password) ==>
                forall i :: 0 <= i < |users| && users[i].username == b.username.value ==>
                  (resp.status == 200 <==> users[i].passwordHash == b.password.value)
    {
      if Valid() && Present(b.username) && Present(b.password) {
        forall i | 0 <= i < |users| && users[i].username == b.username.value
          ensures Lookup(users, b.username.value) == Some(users[i])
        {
          LookupUnique(users, b.username.value, i);
        }
      }
      if !Present(b.username) || !Present(b.password) {
        return Response(400, Error(MSG_MISSING_LOGIN));
      }
      var user := FindUser(b.username.value);
      if user.Some? {
        if user.value.passwordHash == b.password.value {
          resp := Response(200, Message(MSG_LOGIN_OK));
        } else {
          resp := Response(401, Error(MSG_INVALID_CREDENTIALS));
        }
      } else {
        resp := Response(401, Error(MSG_INVALID_CREDENTIALS));
      }
    }
  }
}
