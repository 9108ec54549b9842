/** The access-control list: roles by name. */
module Acl {
  import opened Roles

  /** `check` on a table of roles: an unknown role allows nothing. */
  function Permits(roles: map<string, Role>, roleName: string, perm: string): (b: bool)
    ensures b <==> roleName in roles && perm in roles[roleName].permissions
  {
    if roleName in roles then roles[roleName].Allows(perm) else false
  }

  /** After a role is registered, checks against its name use it, and
      checks against every other name are unchanged. */
  lemma PermitsAfterAdd(roles: map<string, Role>, role: Role, roleName: string, perm: string)
    ensures Permits(roles[role.name := role], roleName, perm)
            == if roleName == role.name then role.Allows(perm) else Permits(roles, roleName, perm)
  {
  }

  class ACL {
    var roles: map<string, Role>

    constructor()
      ensures roles == map[]
    {
      roles := map[];
    }

    /** `add_role`: register the role under its name, replacing any earlier one. */
    method AddRole(role: Role)
      modifies this
      ensures roles == old(roles)[role.name := role]
    {
      roles := roles[role.name := role];
    }

    /** `check`. */
    function Check(roleName: string, perm: string): (b: bool)
      reads this
      ensures b <==> roleName in roles && roles[roleName].Allows(perm)
    {
      Permits(roles, roleName, perm)
    }
  }
}
