/** The signed-in user as the backend returns it and the device keeps it. */
module Session {
  import opened Wrappers

  /** The `user` object of a login reply; `id` may be missing from the JSON. */
  datatype User = User(id: Option<int>, name: string, email: string)

  /**
   * What reading the 'user' key of the device store and parsing it yields:
   * nothing stored (null or ""), a parsed user, or text that `JSON.parse`
   * rejects.
   */
  datatype StoredUser = NoUser | Stored(user: User) | Unparsable

  /** `user.id` is truthy: present and not the number 0. */
  predicate HasId(u: User)
  {
    u.id.Some? && u.id.value != 0
  }
}
