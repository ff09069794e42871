/** The map-backed credential store used by username/password authentication. */
module Credentials {

  /** Usernames mapped to their passwords. */
  type StaticCredentials = map<string, string>

  /**
   * Whether `password` is the password stored for `user`. The request
   * context the source also passes is ignored, and the map is only read.
   */
  predicate Valid(s: StaticCredentials, user: string, password: string)
    ensures Valid(s, user, password) <==> (user, password) in s.Items
  {
    if user !in s then false else password == s[user]
  }

  /** A username that is not a key of the store is never valid. */
  lemma ValidRejectsUnknownUser(s: StaticCredentials, user: string, password: string)
    requires user !in s
    ensures !Valid(s, user, password)
  {
  }

  /** For a stored username, validity is exactly equality with the stored password. */
  lemma ValidIffPasswordMatches(s: StaticCredentials, user: string, password: string)
    requires user in s
    ensures Valid(s, user, password) <==> password == s[user]
  {
  }

  /** An empty stored password admits exactly the empty password. */
  lemma ValidEmptyPassword(s: StaticCredentials, user: string, password: string)
    requires user in s && s[user] == ""
    ensures Valid(s, user, password) <==> password == ""
  {
  }

  /** The store of the credential test: {"foo": "bar", "baz": ""}. */
  lemma StaticCredentialsExample()
    ensures var s := map["foo" := "bar", "baz" := ""];
      && Valid(s, "foo", "bar")
      && Valid(s, "baz", "")
      && !Valid(s, "foo", "")
  {
  }
}
