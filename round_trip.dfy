/** Properties that tie the KV signup and login handlers together through the
    store they share. */
module RoundTrip {
  import opened Common
  import opened Kv
  import Signup
  import Login

  /** The store after a signup request. */
  function After(b: Signup.SignupBody, store: map<string, Value>, h: Hasher, salt: Salt): map<string, Value> {
    Apply(store, Signup.Handle("POST", true, b, store, h, salt).ops)
  }

  /** A user who signed up can log in under any casing of the name with the
      same password, and gets back the name as first submitted. */
  lemma SignupThenLogin(u: string, p: string, phone: string, store: map<string, Value>,
                        h: Hasher, salt: Salt, u': string)
    requires Sound(h)
    requires Signup.Handle("POST", true, Signup.SignupBody(Some(u), Some(p), Some(phone)), store, h, salt).response.status == 201
    requires Lower(u') == Lower(u)
    ensures Login.Handle("POST", true, Login.LoginBody(Some(u'), Some(p)),
                         After(Signup.SignupBody(Some(u), Some(p), Some(phone)), store, h, salt), h)
            == Response(200, Welcome(MSG_LOGIN_OK, Some(u)))
  {
    var b := Signup.SignupBody(Some(u), Some(p), Some(phone));
    var s' := After(b, store, h, salt);
    var key := Signup.UserKey(u');
    Signup.UserKeyCaseInsensitive(u, u');
    assert Signup.WellFormed(b) && Signup.KeyOf(b) == key;
    assert |u'| == |Lower(u)| == |u|;
    assert s'[key] == Signup.NewRecord(u, h.hashPw(p, salt), phone);
    assert HoldsUser(s', key) && !Login.LacksHash(s'[key]);
    assert h.checkPw(p, h.hashPw(p, salt));
  }

  /** Once a name is registered, registering it again under any casing is a
      conflict and leaves the store as it is. */
  lemma SecondSignupConflicts(u: string, p: string, phone: string, store: map<string, Value>,
                              h: Hasher, salt: Salt, again: Signup.SignupBody, salt': Salt)
    requires Signup.Handle("POST", true, Signup.SignupBody(Some(u), Some(p), Some(phone)), store, h, salt).response.status == 201
    requires Signup.WellFormed(again) && Lower(again.username.value) == Lower(u)
    ensures var s' := After(Signup.SignupBody(Some(u), Some(p), Some(phone)), store, h, salt);
            var o := Signup.Handle("POST", true, again, s', h, salt');
            o.response == Response(409, Error(MSG_USER_EXISTS)) && Apply(s', o.ops) == s'
  {
    Signup.UserKeyCaseInsensitive(u, again.username.value);
  }

  /** A wrong password for a registered user gets the same reply as a name
      nobody registered. */
  lemma WrongPasswordAfterSignup(u: string, p: string, phone: string, store: map<string, Value>,
                                 h: Hasher, salt: Salt, wrong: string)
    requires Sound(h)
    requires Signup.Handle("POST", true, Signup.SignupBody(Some(u), Some(p), Some(phone)), store, h, salt).response.status == 201
    requires wrong != "" && !h.checkPw(wrong, h.hashPw(p, salt))
    ensures Login.Handle("POST", true, Login.LoginBody(Some(u), Some(wrong)),
                         After(Signup.SignupBody(Some(u), Some(p), Some(phone)), store, h, salt), h)
            == Login.INVALID_CREDENTIALS
  {
    var b := Signup.SignupBody(Some(u), Some(p), Some(phone));
    var s' := After(b, store, h, salt);
    var key := Signup.UserKey(u);
    assert Signup.WellFormed(b) && Signup.KeyOf(b) == key;
    assert s'[key] == Signup.NewRecord(u, h.hashPw(p, salt), phone);
    assert HoldsUser(s', key) && !Login.LacksHash(s'[key]);
  }
}
