/** The KV-backed login handler (api/login.py): method dispatch, the
    store-configured guard, the presence check, one read of the lower-cased
    key and the bcrypt decision. It never writes, so it is a function of the
    store contents. */
module Login {
  import opened Common
  import opened Kv
  import Signup

  /** The parsed request body: each field may be missing. */
  datatype LoginBody = LoginBody(username: Option<string>, password: Option<string>)

  /** The one failure reply shared by "no such user" and "wrong password". */
  const INVALID_CREDENTIALS := Response(401, Error(MSG_INVALID_CREDENTIALS))

  /** A stored value whose `password_hash` is missing or empty. */
  predicate LacksHash(v: Value) {
    !(v.UserObject? && Present(v.passwordHash))
  }

  /** The reply to a login request, given the configuration flag, the store
      contents and the hasher. */
  function Handle(httpMethod: string, kvInitialised: bool, b: LoginBody,
                  store: map<string, Value>, h: Hasher): (r: Response)
    ensures r.status in {200, 400, 401, 405, 500}
    // every 401 carries the same body, whatever caused it
    ensures r.status == 401 ==> r == INVALID_CREDENTIALS
    // 400 exactly when a configured POST lacks a field
    ensures r.status == 400 <==>
              httpMethod == "POST" && kvInitialised && !(Present(b.username) && Present(b.password))
    // a successful login: the key of the lower-cased name holds a record
    // whose hash the password checks against; the stored name is returned
    ensures r.body.Welcome? <==>
              httpMethod == "POST" && kvInitialised && Present(b.username) && Present(b.password)
              && HoldsUser(store, Signup.UserKey(b.username.value))
              && !LacksHash(store[Signup.UserKey(b.username.value)])
              && h.checkPw(b.password.value, store[Signup.UserKey(b.username.value)].passwordHash.value)
    ensures r.body.Welcome? ==>
              r == Response(200, Welcome(MSG_LOGIN_OK, store[Signup.UserKey(b.username.value)].username))
    // an unknown user is turned away with 401
    ensures (httpMethod == "POST" && kvInitialised && Present(b.username) && Present(b.password)
             && !HoldsUser(store, Signup.UserKey(b.username.value))) ==>
              r == INVALID_CREDENTIALS
    // a known user with a wrong password is turned away with the same 401
    ensures (httpMethod == "POST" && kvInitialised && Present(b.username) && Present(b.password)
             && HoldsUser(store, Signup.UserKey(b.username.value))
             && !LacksHash(store[Signup.UserKey(b.username.value)])
             && !h.checkPw(b.password.value, store[Signup.UserKey(b.username.value)].passwordHash.value)) ==>
              r == INVALID_CREDENTIALS
    // the only 200 a POST gets is the successful login
    ensures httpMethod == "POST" && r.status == 200 ==> r.body.Welcome?
    // a record without a usable hash is an internal error
    ensures (httpMethod == "POST" && kvInitialised && Present(b.username) && Present(b.password)
             && HoldsUser(store, Signup.UserKey(b.username.value))
             && LacksHash(store[Signup.UserKey(b.username.value)])) ==>
              r == Response(500, Error(MSG_CANNOT_VERIFY))
    // dispatch and the configuration guard come first
    ensures httpMethod == "OPTIONS" ==> r == Response(200, EmptyObject)
    ensures httpMethod != "OPTIONS" && httpMethod != "POST" ==> r == Response(405, Error(MSG_METHOD_NOT_ALLOWED))
    ensures httpMethod == "POST" && !kvInitialised ==> r == Response(500, Error(MSG_DB_NOT_CONFIGURED))
  {
    if httpMethod == "OPTIONS" then Response(200, EmptyObject)
    else if httpMethod != "POST" then Response(405, Error(MSG_METHOD_NOT_ALLOWED))
    else if !kvInitialised then Response(500, Error(MSG_DB_NOT_CONFIGURED))
    else if !Present(b.username) || !Present(b.password) then Response(400, Error(MSG_MISSING_LOGIN))
    else
      var key := Signup.UserKey(b.username.value);
      match Read(store, key)
      case None => INVALID_CREDENTIALS
      case Some(Blank) => INVALID_CREDENTIALS
      case Some(record) =>
        if LacksHash(record) then Response(500, Error(MSG_CANNOT_VERIFY))
        else if h.checkPw(b.password.value, record.passwordHash.value) then
          Response(200, Welcome(MSG_LOGIN_OK, record.username))
        else INVALID_CREDENTIALS
  }

  /** The only part of the store a login looks at is the key of its own
      lower-cased username: two stores that agree there give the same reply,
      and a request turned away before the lookup does not depend on the
      store at all. */
  lemma ReadsOnlyOwnKey(httpMethod: string, kvInitialised: bool, b: LoginBody,
                        s1: map<string, Value>, s2: map<string, Value>, h: Hasher)
    requires Present(b.username) ==>
               Read(s1, Signup.UserKey(b.username.value)) == Read(s2, Signup.UserKey(b.username.value))
    ensures Handle(httpMethod, kvInitialised, b, s1, h) == Handle(httpMethod, kvInitialised, b, s2, h)
  {
  }

  /** No username enumeration: a name with no record and a known name with a
      wrong password get exactly the same reply. */
  lemma UnknownUserLooksLikeWrongPassword(httpMethod: string, kvInitialised: bool,
                                          unknown: LoginBody, known: LoginBody,
                                          store: map<string, Value>, h: Hasher)
    requires Present(unknown.username) && Present(unknown.password)
    requires !HoldsUser(store, Signup.UserKey(unknown.username.value))
    requires Present(known.username) && Present(known.password)
    requires HoldsUser(store, Signup.UserKey(known.username.value))
    requires !LacksHash(store[Signup.UserKey(known.username.value)])
    requires !h.checkPw(known.password.value, store[Signup.UserKey(known.username.value)].passwordHash.value)
    ensures Handle(httpMethod, kvInitialised, unknown, store, h) == Handle(httpMethod, kvInitialised, known, store, h)
  {
  }
}
