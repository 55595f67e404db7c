/** The KV-backed registration handler (api/signup.py): method dispatch, the
    store-configured guard, the validation chain, the lower-cased key, the
    duplicate check and the single write of the new user record. */
module Signup {
  import opened Common
  import opened Kv

  /** The parsed request body: each field may be missing. */
  datatype SignupBody = SignupBody(username: Option<string>, password: Option<string>, phone: Option<string>)

  const MIN_USERNAME_LENGTH := 3
  const MIN_PASSWORD_LENGTH := 6

  /** The store key of a username; two usernames share a key exactly when
      they agree up to case. */
  function UserKey(username: string): (k: string)
    ensures |k| == |"user:"| + |username|
    ensures k[..|"user:"|] == "user:"
  {
    "user:" + Lower(username)
  }

  lemma UserKeyCaseInsensitive(a: string, b: string)
    ensures UserKey(a) == UserKey(b) <==> Lower(a) == Lower(b)
  {
    if UserKey(a) == UserKey(b) {
      assert Lower(a) == UserKey(a)[|"user:"|..];
      assert Lower(b) == UserKey(b)[|"user:"|..];
    }
  }

  predicate WellFormed(b: SignupBody) {
    Present(b.username) && Present(b.password) && Present(b.phone)
    && |b.username.value| >= MIN_USERNAME_LENGTH
    && |b.password.value| >= MIN_PASSWORD_LENGTH
  }

  /** The validation chain: presence of all three fields first, then the
      username length, then the password length. None lets the request on. */
  function Validate(b: SignupBody): (r: Option<Response>)
    ensures r.None? <==> WellFormed(b)
    ensures r.Some? ==> r.value.status == 400
    ensures !(Present(b.username) && Present(b.password) && Present(b.phone)) ==>
              r == Some(Response(400, Error(MSG_MISSING_SIGNUP)))
    ensures Present(b.username) && Present(b.password) && Present(b.phone) && |b.username.value| < MIN_USERNAME_LENGTH ==>
              r == Some(Response(400, Error(MSG_SHORT_USERNAME)))
    ensures Present(b.username) && Present(b.password) && Present(b.phone) && |b.username.value| >= MIN_USERNAME_LENGTH
              && |b.password.value| < MIN_PASSWORD_LENGTH ==>
              r == Some(Response(400, Error(MSG_SHORT_PASSWORD)))
  {
    if !Present(b.username) || !Present(b.password) || !Present(b.phone) then
      Some(Response(400, Error(MSG_MISSING_SIGNUP)))
    else if |b.username.value| < MIN_USERNAME_LENGTH then
      Some(Response(400, Error(MSG_SHORT_USERNAME)))
    else if |b.password.value| < MIN_PASSWORD_LENGTH then
      Some(Response(400, Error(MSG_SHORT_PASSWORD)))
    else
      None
  }

  /** The record written on success: the username as submitted, the bcrypt
      hash of the password, the phone verbatim. */
  function NewRecord(username: string, passwordHash: string, phone: string): (v: Value)
    ensures v.UserObject?
  {
    UserObject(Some(username), Some(passwordHash), Some(phone))
  }

  /** The key a request for this body touches (meaningful once presence holds). */
  function KeyOf(b: SignupBody): string {
    if b.username.Some? then UserKey(b.username.value) else ""
  }

  /** The handler as a function of the request, the configuration flag, the
      store contents, the hasher and the salt `bcrypt.gensalt()` drew: the
      reply and the store calls made. */
  function Handle(httpMethod: string, kvInitialised: bool, b: SignupBody,
                  store: map<string, Value>, h: Hasher, salt: Salt): (o: Outcome)
    // every reply is one of the handler's six statuses
    ensures o.response.status in {200, 201, 400, 405, 409, 500}
    // the store is touched only by a configured POST whose body is valid
    ensures o.ops != [] <==> httpMethod == "POST" && kvInitialised && WellFormed(b)
    // every call it makes uses the same key, and the first one is the read
    ensures forall i :: 0 <= i < |o.ops| ==> o.ops[i].key == KeyOf(b)
    ensures o.ops != [] ==> o.ops[0] == Get(KeyOf(b))
    // exactly one write on success, none on any failure
    ensures Writes(o.ops) == (if o.response.status == 201 then 1 else 0)
    // duplicate: the key already holds a user
    ensures o.response.status == 409 <==>
              httpMethod == "POST" && kvInitialised && WellFormed(b) && HoldsUser(store, KeyOf(b))
    ensures o.response.status == 409 ==> Apply(store, o.ops) == store
    // success: the key gets the new record, nothing else changes
    ensures o.response.status == 201 <==>
              httpMethod == "POST" && kvInitialised && WellFormed(b) && !HoldsUser(store, KeyOf(b))
    ensures o.response.status == 201 ==>
              Apply(store, o.ops) == store[KeyOf(b) := NewRecord(b.username.value, h.hashPw(b.password.value, salt), b.phone.value)]
    // method dispatch and the configuration guard come before everything else
    ensures httpMethod == "OPTIONS" ==> o == Outcome(Response(200, EmptyObject), [])
    ensures httpMethod != "OPTIONS" && httpMethod != "POST" ==> o == Outcome(Response(405, Error(MSG_METHOD_NOT_ALLOWED)), [])
    ensures httpMethod == "POST" && !kvInitialised ==> o == Outcome(Response(500, Error(MSG_DB_NOT_CONFIGURED)), [])
    ensures httpMethod == "POST" && kvInitialised && !WellFormed(b) ==> o.response == Validate(b).value
  {
    if httpMethod == "OPTIONS" then Outcome(Response(200, EmptyObject), [])
    else if httpMethod != "POST" then Outcome(Response(405, Error(MSG_METHOD_NOT_ALLOWED)), [])
    else if !kvInitialised then Outcome(Response(500, Error(MSG_DB_NOT_CONFIGURED)), [])
    else match Validate(b)
      case Some(rejection) => Outcome(rejection, [])
      case None =>
        var key := UserKey(b.username.value);
        if HoldsUser(store, key) then
          Outcome(Response(409, Error(MSG_USER_EXISTS)), [Get(key)])
        else
          var record := NewRecord(b.username.value, h.hashPw(b.password.value, salt), b.phone.value);
          var ops := [Get(key), Set(key, record)];
          assert ops[1..][1..] == [];
          Outcome(Response(201, Message(MSG_SIGNUP_OK)), ops)
  }

  /** The handler run against a live store: it makes exactly the calls
      `Handle` lists and leaves the store as they leave it. */
  method Handler(store: Store, httpMethod: string, kvInitialised: bool, b: SignupBody,
                 h: Hasher, salt: Salt) returns (resp: Response)
    modifies store
    ensures resp == Handle(httpMethod, kvInitialised, b, old(store.data), h, salt).response
    ensures store.log == old(store.log) + Handle(httpMethod, kvInitialised, b, old(store.data), h, salt).ops
    ensures store.data == Apply(old(store.data), Handle(httpMethod, kvInitialised, b, old(store.data), h, salt).ops)
  {
    if httpMethod == "OPTIONS" {
      return Response(200, EmptyObject);
    }
    if httpMethod != "POST" {
      return Response(405, Error(MSG_METHOD_NOT_ALLOWED));
    }
    if !kvInitialised {
      return Response(500, Error(MSG_DB_NOT_CONFIGURED));
    }
    var rejection := Validate(b);
    if rejection.Some? {
      return rejection.value;
    }
    var username, password, phone := b.username.value, b.password.value, b.phone.value;
    var existing := store.Get(UserKey(username));
    if existing.Some? && existing.value != Blank {
      return Response(409, Error(MSG_USER_EXISTS));
    }
    var hashed := h.hashPw(password, salt);
    store.Set(UserKey(username), NewRecord(username, hashed, phone));
    resp := Response(201, Message(MSG_SIGNUP_OK));
  }
}
