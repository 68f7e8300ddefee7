/** Resolving a login to a session: the hard-coded admin account, then the stored users. */
module Auth {
  import opened Wrappers

  /** A stored user: the password and role kept under the username key. */
  datatype UserRecord = UserRecord(password: string, role: string)

  /** The logged-in user as the rest of the application sees it. */
  datatype Session = Session(username: string, role: string)

  /** ASCII lower-casing of one character. */
  function LowerChar(c: char): char
  {
    if 'A' <= c <= 'Z' then (c as int + 32) as char else c
  }

  function Lower(s: string): string
  {
    seq(|s|, i requires 0 <= i < |s| => LowerChar(s[i]))
  }

  /** A spelling of "admin" in any mix of upper and lower case, written out letter by letter. */
  predicate AdminSpelling(u: string)
  {
    |u| == 5 && forall i :: 0 <= i < 5 ==> u[i] == "admin"[i] || u[i] == "ADMIN"[i]
  }

  /** Lower-casing gives "admin" exactly for the case variants of "admin". */
  lemma LowerIsAdminIff(u: string)
    ensures Lower(u) == "admin" <==> AdminSpelling(u)
  {
  }

  /** Whether `users` holds `username` with exactly this password. */
  predicate StoredMatch(users: map<string, UserRecord>, username: string, password: string)
  {
    username in users && users[username].password == password
  }

  /**
   * `check_password`: the admin account accepts any case of "admin" with password "admin"
   * and always yields the session admin/admin; otherwise a stored user whose password
   * matches gets their stored role; otherwise the login fails.
   */
  function CheckPassword(users: map<string, UserRecord>, username: string, password: string): (r: Option<Session>)
    ensures AdminSpelling(username) && password == "admin" ==> r == Some(Session("admin", "admin"))
    ensures !(AdminSpelling(username) && password == "admin") ==>
      (r.Some? <==> StoredMatch(users, username, password))
    ensures !(AdminSpelling(username) && password == "admin") && r.Some? ==>
      r.value == Session(username, users[username].role)
  {
    LowerIsAdminIff(username);
    if Lower(username) == "admin" && password == "admin" then
      Some(Session("admin", "admin"))
    else if StoredMatch(users, username, password) then
      Some(Session(username, users[username].role))
    else
      None
  }

  /** A successful login always carries credentials that one of the two accounts accepts. */
  lemma LoginIsSound(users: map<string, UserRecord>, username: string, password: string)
    requires CheckPassword(users, username, password).Some?
    ensures password == "admin" || StoredMatch(users, username, password)
    ensures CheckPassword(users, username, password).value.username in {"admin", username}
  {
  }

  /**
   * The hard-coded admin account shadows any stored user spelled like "admin": with
   * password "admin" the stored role is never used.
   */
  lemma AdminShadowsStoredUser(users: map<string, UserRecord>, username: string)
    requires username in users && AdminSpelling(username)
    ensures CheckPassword(users, username, "admin") == Some(Session("admin", "admin"))
  {
  }
}
