/** The credential check: membership of an exact (username, password) pair in a fixed allow-list. */
module Auth {

  datatype User = User(username: string, password: string)

  /** The two accounts the application accepts. */
  const ValidUsers: seq<User> := [
    User("srilaxmi.vasu", "9989143166"),
    User("srilaxmi.krishna", "9100949909")
  ]

  /** Some record of `users` carries both this username and this password. */
  predicate SomeMatches(users: seq<User>, username: string, password: string)
    ensures SomeMatches(users, username, password) <==>
      exists i :: 0 <= i < |users| && users[i].username == username && users[i].password == password
  {
    if users == [] then
      false
    else
      assert forall i :: 0 < i < |users| ==> users[i] == users[1..][i - 1];
      (users[0].username == username && users[0].password == password) ||
      SomeMatches(users[1..], username, password)
  }

  /** True iff one and the same user record carries both the username and the password. */
  predicate ValidateCredentials(username: string, password: string)
    ensures ValidateCredentials(username, password) <==> User(username, password) in ValidUsers
  {
    SomeMatches(ValidUsers, username, password)
  }

  /** The allow-list spelled out: exactly the two listed pairs are accepted. */
  lemma AcceptedExactly(username: string, password: string)
    ensures ValidateCredentials(username, password) <==>
      (username == "srilaxmi.vasu" && password == "9989143166") ||
      (username == "srilaxmi.krishna" && password == "9100949909")
  {
    assert ValidUsers[0] == User("srilaxmi.vasu", "9989143166");
    assert ValidUsers[1] == User("srilaxmi.krishna", "9100949909");
  }

  /** Both listed accounts log in. */
  lemma ListedUsersAccepted()
    ensures ValidateCredentials("srilaxmi.vasu", "9989143166")
    ensures ValidateCredentials("srilaxmi.krishna", "9100949909")
  {
    AcceptedExactly("srilaxmi.vasu", "9989143166");
    AcceptedExactly("srilaxmi.krishna", "9100949909");
  }

  /** Matching is per record: one user's name with the other user's password is refused. */
  lemma CrossedPairsRejected()
    ensures !ValidateCredentials("srilaxmi.vasu", "9100949909")
    ensures !ValidateCredentials("srilaxmi.krishna", "9989143166")
  {
    AcceptedExactly("srilaxmi.vasu", "9100949909");
    AcceptedExactly("srilaxmi.krishna", "9989143166");
  }

  /** Comparison is exact and case-sensitive. */
  lemma CaseSensitive()
    ensures !ValidateCredentials("Srilaxmi.Vasu", "9989143166")
  {
    AcceptedExactly("Srilaxmi.Vasu", "9989143166");
  }

  /** A listed username with any other password is refused. */
  lemma WrongPasswordRejected(username: string, password: string)
    requires (username == "srilaxmi.vasu" && password != "9989143166") ||
             (username == "srilaxmi.krishna" && password != "9100949909")
    ensures !ValidateCredentials(username, password)
  {
    AcceptedExactly(username, password);
  }

  /** A username that is not listed is refused whatever the password. */
  lemma UnknownUserRejected(username: string, password: string)
    requires username != "srilaxmi.vasu" && username != "srilaxmi.krishna"
    ensures !ValidateCredentials(username, password)
  {
    AcceptedExactly(username, password);
  }
}
