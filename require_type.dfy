/** How several permissions or groups combine: all of them, or any one of them. */
module RequireTypes {
  datatype RequireType = And | Or

  /**
   * A chat permission (the library's permission enumeration), by name. The library's
   * permission check is a parameter: `granted(user, p)` says whether `user` holds `p`
   * in the channel at hand.
   */
  datatype Permission = Permission(name: string)
}
