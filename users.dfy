// The user store as the notification paths see it (UserRepository.GetByID and
// GetPreferences): a user either loads or the lookup fails, and a preferences row
// either exists or it does not. A failed preferences query reads like a missing row.
module Users {
  import opened Wrappers
  import opened Models

  datatype Directory = Directory(users: map<string, User>, emailPrefs: map<string, bool>)

  function LookupUser(d: Directory, id: string): (r: Result<User, string>)
    ensures r.Success? <==> id in d.users
    ensures r.Success? ==> r.value == d.users[id]
  {
    if id in d.users then Success(d.users[id]) else Failure("sql: no rows in result set")
  }

  /** `prefs == nil || prefs.EmailNotifications`: without a preferences row, email is on. */
  predicate EmailEnabled(d: Directory, userId: string)
  {
    userId !in d.emailPrefs || d.emailPrefs[userId]
  }
}
