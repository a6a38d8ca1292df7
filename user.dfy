/** The account entity. Its password is stored encoded; its roles become its
    granted authorities; its companies are the tenants it may act in. */
module UserModel {
  import opened Wrappers

  datatype Role = ROLE_USER | ROLE_ADMIN | ROLE_SUPER_ADMIN

  /** `Role.name()`. */
  function RoleName(r: Role): string
  {
    match r
    case ROLE_USER => "ROLE_USER"
    case ROLE_ADMIN => "ROLE_ADMIN"
    case ROLE_SUPER_ADMIN => "ROLE_SUPER_ADMIN"
  }

  lemma RoleNameInjective(a: Role, b: Role)
    requires RoleName(a) == RoleName(b)
    ensures a == b
  {
  }

  datatype User = User(
    firstName: string,
    lastName: string,
    username: string,          // not a unique column
    password: string,          // already encoded
    email: Option<string>,     // unique column; null allowed
    roles: set<Role>,
    companies: set<nat>)       // ids of the companies the user belongs to

  /** The authority names a set of roles grants. */
  function AuthorityNames(roles: set<Role>): set<string> { set r | r in roles :: RoleName(r) }

  /** `User.getAuthorities`: one authority per role, named after the role. */
  method GetAuthorities(u: User) returns (authorities: seq<string>)
    ensures |authorities| == |u.roles|
    ensures forall a :: a in authorities <==> exists r :: r in u.roles && RoleName(r) == a
    ensures forall i, j :: 0 <= i < j < |authorities| ==> authorities[i] != authorities[j]
  {
    var rest := u.roles;
    authorities := [];
    while rest != {}
      invariant rest <= u.roles
      invariant |authorities| + |rest| == |u.roles|
      invariant forall a :: a in authorities <==> exists r :: r in u.roles - rest && RoleName(r) == a
      invariant forall i, j :: 0 <= i < j < |authorities| ==> authorities[i] != authorities[j]
      decreases |rest|
    {
      var r :| r in rest;
      if RoleName(r) in authorities {
        var q :| q in u.roles - rest && RoleName(q) == RoleName(r);
        RoleNameInjective(q, r);
        assert false;
      }
      authorities := authorities + [RoleName(r)];
      rest := rest - {r};
    }
  }
}
