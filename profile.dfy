/**
 * The profile screen's view model: it publishes every record the store emits
 * and, on first run (an empty store), inserts a fixed default profile.
 */
module Profile {
  import opened Wrappers
  import opened Text
  import opened Data

  /** The hard-coded first-run profile.  Its id is whatever the `User` entity
      assigns when none is given, which is supplied from outside.  None of its
      four strings is blank. */
  function DefaultUser(id: int): (u: User)
    ensures u.id == id
    ensures !IsBlank(u.firstName) && !IsBlank(u.lastName) && !IsBlank(u.address) && !IsBlank(u.phoneNumber)
  {
    var u := User(id, "Emmanuel", "Oyiboke", "Nigeria", "+7 811-732-5298");
    assert !IsWhitespace(u.firstName[0]) && !IsWhitespace(u.lastName[0]);
    assert !IsWhitespace(u.address[0]) && !IsWhitespace(u.phoneNumber[0]);
    u
  }

  class ProfileViewModel {
    /** The observed `user` state. */
    var user: Option<User>
    const userDao: UserDao
    /** The id the `User` entity gives a record built without one. */
    const unsetId: int

    constructor (userDao: UserDao, unsetId: int)
      ensures user == None && this.userDao == userDao && this.unsetId == unsetId
    {
      user := None;
      this.userDao := userDao;
      this.unsetId := unsetId;
    }

    /** One value collected from `userDao.getUser()`. */
    method OnEmission(fetchedUser: Option<User>)
      modifies this, userDao
      ensures user == fetchedUser
      ensures fetchedUser.None? ==> userDao.calls == old(userDao.calls) + [Insert(DefaultUser(unsetId))]
      ensures fetchedUser.Some? ==> userDao.calls == old(userDao.calls)
    {
      user := fetchedUser;
      if fetchedUser.None? {
        var defaultUser := DefaultUser(unsetId);
        userDao.InsertUser(defaultUser);
      }
    }
  }
}
