# Credential register/verify logic, modelled in Dafny

The repository implements user signup and login three times:

- two Vercel serverless handlers, `api/signup.py` and `api/login.py`, that keep one
  JSON user record per key `"user:" + username.lower()` in a key-value store and
  hash passwords with bcrypt;
- a Flask app, `app.py`, that keeps users in a process-wide list `users_db`,
  matches names exactly and stores and compares passwords in plain text.

The model keeps the two families apart:

- `Common` (common.dfy): optional request fields, Python string truthiness
  (`Present`), the reply as a status code plus a parsed JSON body, the fixed
  reply texts, ASCII `Lower`, and the bcrypt pair as a `Hasher` value.
- `Kv` (kv_store.dfy): the values `kv.get` can return, the calls a handler makes
  (`Get`, `Set`), their effect on a `map` (`Apply`), and a `Store` class whose
  `Get`/`Set` methods update the map in place and keep a ghost log of calls.
- `Signup` (signup.dfy): the pure steps (validation chain, key, record), the
  whole handler as a function `Handle` that returns the reply and the store calls,
  and the imperative `Handler` method run against a `Store`, proved to make
  exactly those calls.
- `Login` (login.dfy): the handler as a function of the store map, since it
  only reads.
- `RoundTrip` (round_trip.dfy): signup followed by login or by a second signup.
- `InMemory` (in_memory.dfy): `users_db` as the `users` field of a `UserDb`
  class, `find_user` as a loop, `add_user` and both routes as methods.
- `Variants` (variants.dfy): case folding in one family and not the other.

bcrypt is not modelled. `hashpw` and `checkpw` are two function values in a
`Hasher`. The salt drawn by `bcrypt.gensalt()` is a parameter. Whatever the model
needs of bcrypt is written as `Common.Sound`: a hash is never empty, and a
password verifies against any hash made from it. Only the round-trip lemmas
assume it.

The module-level `kv_initialized` flag is a parameter (`kvInitialised`).
So are the HTTP method and the already-parsed body.

Points where the code's behaviour is easy to misread:

- A successful KV login returns `user_data.get('username')`, so the name in
  the reply is optional (`Option<string>`).
- The Flask variant stores the plain password under `password_hash` and compares
  it with `==`.
- Only the KV handlers treat a stored empty string as absent. The Flask list
  has no such case.

## Model

| member | source | states |
|---|---|---|
| Common.Lower | api/signup.py:64 | the normalised name has the same length, every character case-mapped in place, and no upper-case letter left |
| Common.LowerIdempotent | api/login.py:49-50 | lower-casing twice gives the same key as lower-casing once |
| Kv.Read | api/signup.py:63-64 | `kv.get` yields a value exactly for a key that was set, and that value; `ReadAfterSet` and `ReadUnwritten` tie it to writes |
| Kv.ReadAfterSet | api/signup.py:88 | after any call sequence ending in `set(k, v)`, reading `k` gives `v`: the last write wins |
| Kv.ReadUnwritten | api/signup.py:88 | a key that no call in a sequence writes reads the same before and after it, present or absent |
| Kv.Apply | api/signup.py:88 | a sequence of store calls writes exactly the keys it sets, leaves every other key as it was, and changes nothing when it has no write |
| Kv.Store.Get | api/signup.py:64 | a read returns the stored value or None and changes no data |
| Kv.Store.Set | api/signup.py:88 | an unconditional upsert of one key |
| Signup.UserKey | api/signup.py:64 | the key starts with `"user:"` and is five characters longer than the name; `UserKeyCaseInsensitive` states that two names share it exactly when they agree after `Lower` |
| Signup.UserKeyCaseInsensitive | api/signup.py:87-88 | two names share a key exactly when they agree after lower-casing |
| Signup.Validate | api/signup.py:50-57 | a body is accepted iff all three fields are present, the name has at least 3 characters and the password at least 6; otherwise 400, with the missing-field message first, then the short-name message, then the short-password message |
| Signup.NewRecord | api/signup.py:81-86 | the record written is a user object, never the empty value |
| Signup.Handle | api/signup.py:22-106 | OPTIONS gives 200, other non-POST methods 405, and an unconfigured store 500, all before any store call; the store is touched only by a valid POST; every call uses the one key `"user:" + lower(name)` and the first call is the read; 409 iff the key holds something other than None or `''`, with no write; 201 iff it does not, with exactly one write (the submitted name, `hashpw(password, salt)`, the phone) and every other key unchanged; zero writes on every other reply |
| Signup.Handler | api/signup.py:22-106 | the handler run on a live store returns the reply `Handle` gives, makes exactly the calls it lists, and leaves the store as those calls leave it |
| Login.Handle | api/login.py:20-93 | OPTIONS gives 200, other non-POST methods 405, and an unconfigured store 500; 400 iff a configured POST lacks a name or a password; every 401 is the same reply, and an absent or `''` record gives it; a record with a missing or empty hash gives 500; a record whose hash the password does not check against gives that same 401; a POST gets the login reply with the stored name iff the record's hash checks against the password, and that is its only 200 |
| Login.ReadsOnlyOwnKey | api/login.py:49-50 | the reply depends on the store only through the value at the requester's own lower-cased key |
| Login.UnknownUserLooksLikeWrongPassword | api/login.py:52-81 | an unknown name and a known name with a wrong password get the identical reply |
| RoundTrip.SignupThenLogin | api/login.py:49-77 | after a successful signup of (u, p, phone), a login with any name equal to u up to case and password p gives 200 and returns u as submitted |
| RoundTrip.SecondSignupConflicts | api/signup.py:64-68 | after a successful signup, a valid signup of the same name in any casing gives 409 and leaves the store unchanged |
| RoundTrip.WrongPasswordAfterSignup | api/login.py:71-81 | after a successful signup, a password that does not check against the stored hash gives the common 401 |
| InMemory.IndexOf | app.py:19-23 | the position found holds the exact name and no earlier entry does; none is found iff no entry has the name |
| InMemory.LookupUnique | app.py:19-23 | with distinct names, the entry found is the one entry with that name |
| InMemory.AppendFresh | app.py:26-29 | appending an entry whose name is not yet in the list keeps the names pairwise distinct |
| InMemory.LoginReply | app.py:63-93 | 400 iff a field is missing; 200 iff the first entry with the exact name holds the exact password; every other reply is one 401 for an unknown user and a wrong password alike |
| InMemory.UserDb.constructor | app.py:14 | the list starts empty, so its names are distinct |
| InMemory.UserDb.FindUser | app.py:19-23 | the scan returns the first entry with the exact, case-sensitive name, or None when there is none |
| InMemory.UserDb.AddUser | app.py:26-32 | a taken name gives False and no change; a fresh name gives True and appends exactly one entry at the end; distinct names stay distinct |
| InMemory.UserDb.Signup | app.py:35-60 | a missing field gives 400 and no change; otherwise 201 with one appended entry holding the plain password iff the exact name is not taken, else 409 with no change; no length rules; distinct names stay distinct |
| InMemory.UserDb.Login | app.py:63-93 | the reply is `LoginReply` of the list, the list is not changed, and 200 means some entry has that exact name and password; with distinct names, 200 holds exactly when the one entry with that name holds the password |
| Variants.CaseFoldingDiffers | app.py:19-23 | "Bob" and "bob" share one store key, but the list lookup for "Bob" does not find "bob" |

## Left out

- HTTP plumbing is not modelled: Flask routing, `app.run`, the Vercel request object, CORS headers and the response tuple. A reply is a status code with a parsed JSON body.
- JSON is not modelled. This covers `json.loads`/`json.dumps`, the `JSONDecodeError` branch (400) and UTF-8 encoding. Request bodies are optional string fields.
- Stored records are a `Value` datatype. A stored JSON value that is not an object, or has non-string fields, is not represented.
- Field values that are not strings (numbers, lists) are not represented. A field is a string or missing.
- The generic `except Exception` → 500 path of both KV handlers is not modelled. This includes a store or hasher failure, and `checkpw` raising on a malformed hash.
- Flask's own failure when `request.get_json()` yields no object is not modelled.
- The KV client construction and its environment variables are reduced to the `kvInitialised` flag.
- bcrypt's internals, salt randomness and timing safety are not modelled. The hasher is a parameter, and `Common.Sound` is the one assumption about it.
- Common.Lower: maps only ASCII `A`–`Z`, weaker than Python's Unicode `str.lower()`, because full Unicode case mapping is outside the model.
- The get-then-set race between two concurrent signups of the same key is not modelled. Every handler call is sequential.
- `print` logging is not modelled.
- The `index` route of app.py is not modelled.
- `script.js` and `public/script.js` are browser UI code and are not part of this model.
