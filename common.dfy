/** Shared vocabulary of the three credential handlers: optional request fields,
    the JSON reply as a status code with a parsed body, the fixed reply texts,
    the username normalisation and the password hasher. */
module Common {

  datatype Option<+T> = None | Some(value: T)

  /** Python truthiness of a request field that holds a string: it is truthy
      when it is there and is not the empty string. */
  predicate Present(f: Option<string>) {
    f.Some? && f.value != ""
  }

  /** The JSON object a handler replies with, already serialised away. */
  datatype Body =
    | EmptyObject                                      // {}
    | Error(error: string)                             // {"error": ...}
    | Message(message: string)                         // {"message": ...}
    | Welcome(message: string, username: Option<string>) // {"message": ..., "username": ...}

  datatype Response = Response(status: int, body: Body)

  const MSG_DB_NOT_CONFIGURED := "Database not configured"
  const MSG_METHOD_NOT_ALLOWED := "Method Not Allowed"
  const MSG_MISSING_SIGNUP := "Missing username, password, or phone number"
  const MSG_SHORT_USERNAME := "Username must be at least 3 characters"
  const MSG_SHORT_PASSWORD := "Password must be at least 6 characters"
  const MSG_USER_EXISTS := "Username already exists"
  const MSG_SIGNUP_OK := "User signed up successfully!"
  const MSG_MISSING_LOGIN := "Missing username or password"
  const MSG_INVALID_CREDENTIALS := "Invalid username or password"
  const MSG_CANNOT_VERIFY := "Could not verify password"
  const MSG_LOGIN_OK := "Login successful!"

  predicate IsUpper(c: char) {
    'A' <= c <= 'Z'
  }

  /** ASCII case mapping of one character. */
  function LowerChar(c: char): (d: char)
    ensures !IsUpper(d)
    ensures !IsUpper(c) ==> d == c
    ensures IsUpper(c) ==> d as int - c as int == 'a' as int - 'A' as int
  {
    if IsUpper(c) then (c as int + ('a' as int - 'A' as int)) as char else c
  }

  /** `str.lower()` restricted to ASCII letters: same length, no upper-case
      letter left, every character case-mapped in place. */
  function Lower(s: string): (t: string)
    ensures |t| == |s|
    ensures forall i :: 0 <= i < |t| ==> t[i] == LowerChar(s[i])
    ensures forall i :: 0 <= i < |t| ==> !IsUpper(t[i])
  {
    if s == [] then [] else [LowerChar(s[0])] + Lower(s[1..])
  }

  /** Normalising twice is normalising once. */
  lemma {:induction false} LowerIdempotent(s: string)
    ensures Lower(Lower(s)) == Lower(s)
  {
    var t := Lower(s);
    forall i | 0 <= i < |t| ensures Lower(t)[i] == t[i] {
      assert !IsUpper(t[i]);
    }
  }

  /** The password hasher: `hashPw` is bcrypt.hashpw with an explicit salt,
      `checkPw` is bcrypt.checkpw. Both are opaque to the model. */
  type Salt = string

  datatype Hasher = Hasher(hashPw: (string, Salt) -> string, checkPw: (string, string) -> bool)

  /** What the model assumes of bcrypt: a hash is never the empty string
      (bcrypt hashes are 60 characters long), and a password verifies against
      any hash made from it. */
  ghost predicate Sound(h: Hasher) {
    forall p: string, s: Salt :: h.hashPw(p, s) != "" && h.checkPw(p, h.hashPw(p, s))
  }
}
