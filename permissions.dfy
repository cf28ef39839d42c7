/** The permission evaluator `validateUserPermissions`: a user passes when it
    holds every required permission and every required role, by exact string
    membership. An absent or empty requirement list imposes nothing. */
module Permissions {
  import opened Wrappers
  import opened Users

  /** `list?.length > 0`: false for an absent list and for an empty one. */
  predicate HasEntries(list: Option<seq<string>>)
  {
    list.Some? && |list.value| > 0
  }

  /** The requirements a list imposes, an absent list read as empty. */
  function Required(list: Option<seq<string>>): seq<string>
  {
    if list.Some? then list.value else []
  }

  /** `required.every(x => held.includes(x))`, stopping at the first miss. */
  function Every(required: seq<string>, held: seq<string>): (r: bool)
    ensures r <==> forall x :: x in required ==> x in held
  {
    if required == [] then true
    else
      assert forall x :: x in required <==> x == required[0] || x in required[1..];
      required[0] in held && Every(required[1..], held)
  }

  /** What access means, independently of how the check is written: each
      required permission is among the user's permissions and each required
      role among the user's roles. */
  ghost predicate Grants(user: User, permissions: seq<string>, roles: seq<string>)
  {
    (forall p :: p in permissions ==> p in user.permissions) &&
    (forall q :: q in roles ==> q in user.roles)
  }

  /** `validateUserPermissions({ user, permissions, roles })`, with its two early
      returns. The user is a value, so it can never be null. */
  function ValidateUserPermissions(user: User, permissions: Option<seq<string>>, roles: Option<seq<string>>): (r: bool)
    ensures r <==> Grants(user, Required(permissions), Required(roles))
  {
    if HasEntries(permissions) && !Every(permissions.value, user.permissions) then false
    else if HasEntries(roles) && !Every(roles.value, user.roles) then false
    else true
  }

  /** The elements of a sequence, forgetting order and repetition. */
  ghost function Elements(s: seq<string>): set<string>
  {
    set x | x in s
  }

  /** With nothing required, every user passes. */
  lemma NothingRequiredPasses(user: User, permissions: Option<seq<string>>, roles: Option<seq<string>>)
    requires !HasEntries(permissions) && !HasEntries(roles)
    ensures ValidateUserPermissions(user, permissions, roles)
  {
  }

  /** One required permission the user lacks is enough to fail. */
  lemma MissingPermissionFails(user: User, permissions: seq<string>, roles: Option<seq<string>>, p: string)
    requires p in permissions && p !in user.permissions
    ensures !ValidateUserPermissions(user, Some(permissions), roles)
  {
  }

  /** One required role the user lacks is enough to fail. */
  lemma MissingRoleFails(user: User, permissions: Option<seq<string>>, roles: seq<string>, q: string)
    requires q in roles && q !in user.roles
    ensures !ValidateUserPermissions(user, permissions, Some(roles))
  {
  }

  /** Only which strings occur matters: reordering or repeating entries, in the
      requirements or in what the user holds, does not change the verdict. */
  lemma OrderAndDuplicatesIrrelevant(user: User, user': User,
                                     permissions: Option<seq<string>>, permissions': Option<seq<string>>,
                                     roles: Option<seq<string>>, roles': Option<seq<string>>)
    requires Elements(user.permissions) == Elements(user'.permissions)
    requires Elements(user.roles) == Elements(user'.roles)
    requires Elements(Required(permissions)) == Elements(Required(permissions'))
    requires Elements(Required(roles)) == Elements(Required(roles'))
    ensures ValidateUserPermissions(user, permissions, roles) == ValidateUserPermissions(user', permissions', roles')
  {
    forall x: string
      ensures (x in user.permissions <==> x in user'.permissions) && (x in user.roles <==> x in user'.roles)
      ensures (x in Required(permissions) <==> x in Required(permissions'))
      ensures (x in Required(roles) <==> x in Required(roles'))
    {
      assert x in user.permissions <==> x in Elements(user.permissions);
      assert x in user'.permissions <==> x in Elements(user'.permissions);
      assert x in user.roles <==> x in Elements(user.roles);
      assert x in user'.roles <==> x in Elements(user'.roles);
      assert x in Required(permissions) <==> x in Elements(Required(permissions));
      assert x in Required(permissions') <==> x in Elements(Required(permissions'));
      assert x in Required(roles) <==> x in Elements(Required(roles));
      assert x in Required(roles') <==> x in Elements(Required(roles'));
    }
  }

  /** Granting the user more permissions or roles never turns a pass into a fail. */
  lemma MoreGrantsKeepPassing(user: User, more: User, permissions: Option<seq<string>>, roles: Option<seq<string>>)
    requires forall x :: x in user.permissions ==> x in more.permissions
    requires forall x :: x in user.roles ==> x in more.roles
    ensures ValidateUserPermissions(user, permissions, roles) ==> ValidateUserPermissions(more, permissions, roles)
  {
  }

  /** Requiring more never turns a fail into a pass. */
  lemma MoreRequirementsKeepFailing(user: User, permissions: Option<seq<string>>, roles: Option<seq<string>>,
                                    permissions': Option<seq<string>>, roles': Option<seq<string>>)
    requires forall x :: x in Required(permissions) ==> x in Required(permissions')
    requires forall x :: x in Required(roles) ==> x in Required(roles')
    ensures !ValidateUserPermissions(user, permissions, roles) ==> !ValidateUserPermissions(user, permissions', roles')
  {
  }

  /** A user holding only "users.create" may create users but not also edit them. */
  lemma CreateWithoutEdit(user: User)
    requires user.permissions == ["users.create"]
    ensures ValidateUserPermissions(user, Some(["users.create"]), None)
    ensures !ValidateUserPermissions(user, Some(["users.create", "users.edit"]), None)
  {
    assert "users.edit" !in user.permissions;
  }
}
