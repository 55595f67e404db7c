/** Where the KV handlers and the Flask variant disagree on identity: the KV
    handlers fold case, the in-memory list matches names exactly. */
module Variants {
  import opened Common
  import Signup
  import InMemory

  /** "Bob" and "bob" are one identity in the store and two in the list. */
  lemma CaseFoldingDiffers(users: seq<InMemory.User>)
    requires forall i :: 0 <= i < |users| ==> users[i].username != "Bob"
    ensures Signup.UserKey("Bob") == Signup.UserKey("bob")
    ensures InMemory.IndexOf(users + [InMemory.User("bob", "secret1", "555-1234")], "Bob").None?
  {
    assert Lower("Bob") == "bob";
  }
}
