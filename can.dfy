/** The `useCan` hook: the permission check of `validateUserPermissions` behind
    a guard that refuses when nobody is signed in. The user the hook reads from
    the session context is passed in. */
module Can {
  import opened Wrappers
  import opened Users
  import opened Permissions
  import Auth

  /** `useCan({ permissions, roles })` for the session's current user: false
      when signed out, otherwise exactly the evaluator's notion of access. */
  function UseCan(user: Option<User>, permissions: Option<seq<string>>, roles: Option<seq<string>>): (r: bool)
    ensures !Auth.IsAuthenticated(user) ==> !r
    ensures user.Some? ==> (r <==> Grants(user.value, Required(permissions), Required(roles)))
  {
    if !Auth.IsAuthenticated(user) then false
    else if HasEntries(permissions) && !Every(permissions.value, user.value.permissions) then false
    else if HasEntries(roles) && !Every(roles.value, user.value.roles) then false
    else true
  }

  /** For a signed-in user the hook and the evaluator always agree. */
  lemma UseCanAgreesWithValidate(user: User, permissions: Option<seq<string>>, roles: Option<seq<string>>)
    ensures UseCan(Some(user), permissions, roles) == ValidateUserPermissions(user, permissions, roles)
  {
  }

  /** A signed-in user with nothing required passes. */
  lemma SignedInNothingRequired(user: User, permissions: Option<seq<string>>, roles: Option<seq<string>>)
    requires !HasEntries(permissions) && !HasEntries(roles)
    ensures UseCan(Some(user), permissions, roles)
  {
  }

  /** Granting more never revokes, requiring more never grants, and signing out
      always revokes. */
  lemma UseCanMonotone(user: User, more: User, permissions: Option<seq<string>>, roles: Option<seq<string>>,
                       permissions': Option<seq<string>>, roles': Option<seq<string>>)
    requires forall x :: x in user.permissions ==> x in more.permissions
    requires forall x :: x in user.roles ==> x in more.roles
    requires forall x :: x in Required(permissions) ==> x in Required(permissions')
    requires forall x :: x in Required(roles) ==> x in Required(roles')
    ensures UseCan(Some(user), permissions, roles) ==> UseCan(Some(more), permissions, roles)
    ensures UseCan(Some(user), permissions', roles') ==> UseCan(Some(user), permissions, roles)
    ensures !UseCan(None, permissions, roles)
  {
  }
}
