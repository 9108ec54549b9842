/** A named set of permissions. */
module Roles {

  datatype Role = Role(name: string, permissions: set<string>)
  {
    /** `allows`: the permission is one of the role's. */
    predicate Allows(perm: string)
      ensures Allows(perm) <==> perm in permissions
    {
      perm in permissions
    }
  }

  /** A role without permissions allows nothing. */
  lemma EmptyAllowsNothing(name: string, perm: string)
    ensures !Role(name, {}).Allows(perm)
  {
  }

  /** What a role allows does not depend on its name. */
  lemma AllowsIgnoresName(r: Role, name: string, perm: string)
    ensures r.(name := name).Allows(perm) == r.Allows(perm)
  {
  }
}
