/** Request-level permission checks of the shop (core/permissions.py), together
    with the two framework permission classes the order endpoints use.
    Authentication and `has_perm` are not modelled: a caller is either
    anonymous or an authenticated user with a staff flag and a set of
    permission names. */
module Permissions {

  /** The user attached to a request. */
  datatype User =
    | Anonymous
    | Authenticated(id: int, isStaff: bool, perms: set<string>)

  /** The HTTP methods that never change state. */
  const SafeMethods: set<string> := {"GET", "HEAD", "OPTIONS"}

  /** `IsAdminOrReadOnly.has_permission`: reads for everybody, writes only
      for a present staff user. */
  predicate IsAdminOrReadOnly(verb: string, user: User)
    ensures user.Anonymous? ==> (IsAdminOrReadOnly(verb, user) <==> verb in SafeMethods)
  {
    verb in SafeMethods || (user.Authenticated? && user.isStaff)
  }

  /** `user.has_perm(name)`, from the user's permission set; an anonymous
      user holds no permission. */
  predicate HasPerm(user: User, name: string)
    ensures HasPerm(user, name) ==> user.Authenticated?
  {
    user.Authenticated? && name in user.perms
  }

  /** `ViewCustomerHistoryPermission.has_permission`. */
  predicate ViewCustomerHistoryPermission(user: User)
    ensures ViewCustomerHistoryPermission(user) ==> user.Authenticated?
  {
    HasPerm(user, "store.view_history")
  }

  /** The framework's `IsAdminUser`: a present staff user. */
  predicate IsAdminUser(user: User)
  {
    user.Authenticated? && user.isStaff
  }

  /** The framework's `IsAuthenticated`: any signed-in user. */
  predicate IsAuthenticated(user: User)
  {
    user.Authenticated?
  }

  lemma SafeMethodsAlwaysPermitted(verb: string, user: User)
    requires verb in SafeMethods
    ensures IsAdminOrReadOnly(verb, user)
  {
  }

  lemma UnsafeMethodPermittedIffStaff(verb: string, user: User)
    requires verb !in SafeMethods
    ensures IsAdminOrReadOnly(verb, user) <==> IsAdminUser(user)
  {
  }

  lemma StaffPermittedEveryMethod(verb: string, user: User)
    requires IsAdminUser(user)
    ensures IsAdminOrReadOnly(verb, user)
  {
  }

  lemma NonStaffDeniedUnsafeMethods(verb: string, user: User)
    requires !IsAdminUser(user)
    requires verb !in SafeMethods
    ensures !IsAdminOrReadOnly(verb, user)
  {
  }

  lemma HistoryIffPermissionHeld(user: User)
    ensures ViewCustomerHistoryPermission(user) <==>
              user.Authenticated? && "store.view_history" in user.perms
    ensures user.Anonymous? ==> !ViewCustomerHistoryPermission(user)
  {
  }
}
