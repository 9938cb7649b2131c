/**
 * The persisted `User` record and the `UserDao` writes the view models issue.
 * The store is reduced to the log of calls made to it: the entity's id
 * generation and Room's conflict strategy are outside this model.
 */
module Data {

  datatype User = User(id: int, firstName: string, lastName: string, address: string, phoneNumber: string)

  /** One write issued to the DAO. */
  datatype DaoCall = Insert(user: User) | Update(user: User)

  class UserDao {
    /** Every write issued so far, oldest first. */
    var calls: seq<DaoCall>

    constructor ()
      ensures calls == []
    {
      calls := [];
    }

    method InsertUser(user: User)
      modifies this
      ensures calls == old(calls) + [Insert(user)]
    {
      calls := calls + [Insert(user)];
    }

    method UpdateUser(user: User)
      modifies this
      ensures calls == old(calls) + [Update(user)]
    {
      calls := calls + [Update(user)];
    }
  }
}
