/**
 * Hitch.ACL: a two-level permission map, principal key -> access type -> flag.
 * A flag is any JavaScript value: grants store `true`, and the constructor
 * copies whatever values the object it is given holds.
 * Principals are normalised to property keys: a user to its id, a role to
 * "role:" + its name, and anything else (such as Hitch.ACL.PUBLIC, 1337) to its
 * string form.
 */
module Acl {
  import opened Common
  import opened Js

  /** `Hitch.ACL.PUBLIC` (1337) as the property key it becomes. */
  const PUBLIC: string := "1337"
  const READ: string := "read"
  const WRITE: string := "write"

  /** What `_getAccess`/`_setAccess` accept as `userId`. */
  datatype Principal =
    | User(id: string)   // a Hitch.User, keyed by its id
    | Role(name: string) // a Hitch.Role, keyed by "role:" + getName()
    | Id(key: string)    // any other value, keyed by its string form

  function PublicPrincipal(): Principal { Id(PUBLIC) }

  /** The property key a principal is stored under. */
  function PrincipalKey(p: Principal): string
  {
    match p
    case User(id) => id
    case Role(name) => "role:" + name
    case Id(key) => key
  }

  type Permissions = map<string, map<string, Value>>

  /** `permissions[key] && permissions[key][accessType]`; `None` is the falsy `undefined`. */
  function Lookup(perms: Permissions, key: string, accessType: string): (r: Option<Value>)
    ensures r.Some? <==> key in perms && accessType in perms[key]
    ensures r.Some? ==> r.value == perms[key][accessType]
  {
    if key in perms && accessType in perms[key] then Some(perms[key][accessType]) else None
  }

  /** A lookup result is truthy only when a truthy value is stored. */
  predicate Allowed(r: Option<Value>)
  {
    r.Some? && Truthy(r.value)
  }

  /**
   * The permissions after `_setAccess(accessType, key, allowed)`: a truthy
   * `allowed` creates the principal's entry if needed and stores `true`; a
   * falsy one is a revoke, which on a missing entry
   * does nothing, and otherwise deletes only that access type, leaving the
   * (possibly now empty) entry in place.
   */
  function Updated(perms: Permissions, key: string, accessType: string, allowed: Value): Permissions
  {
    if Truthy(allowed) then
      perms[key := (if key in perms then perms[key] else map[])[accessType := Bool(true)]]
    else if key !in perms then perms
    else perms[key := perms[key] - {accessType}]
  }

  /** A grant adds the principal if it is new; a revoke never adds or removes a principal. */
  lemma UpdatedPrincipals(perms: Permissions, key: string, accessType: string, allowed: Value)
    ensures Updated(perms, key, accessType, allowed).Keys == if Truthy(allowed) then perms.Keys + {key} else perms.Keys
  {
  }

  lemma GrantIsPut(perms: Permissions, key: string, accessType: string, allowed: Value)
    requires Truthy(allowed)
    ensures Updated(perms, key, accessType, allowed) == perms[key := (if key in perms then perms[key] else map[])[accessType := Bool(true)]]
  {
  }

  lemma RevokeIsDelete(perms: Permissions, key: string, accessType: string, allowed: Value)
    requires !Truthy(allowed) && key in perms
    ensures Updated(perms, key, accessType, allowed) == perms[key := perms[key] - {accessType}]
  {
  }

  /** Deleting from an emptied entry leaves it as it is. */
  lemma EmptyEntry(entry: map<string, Value>, key: string)
    requires |entry| == 0
    ensures entry - {key} == entry
  {
    assert entry == map[];
  }

  /** The argument of `new Hitch.ACL(permissions)`. */
  datatype AclInit =
    | FromUser(id: string)             // a Hitch.User
    | FromObject(entries: Permissions) // an object: the pairs `_.each` enumerates, at both levels
    | NoPermissions                    // anything else

  /** A truthy `allowed` is read back as `true`, whatever value it was. */
  lemma GrantThenLookup(perms: Permissions, key: string, accessType: string, allowed: Value)
    requires Truthy(allowed)
    ensures Lookup(Updated(perms, key, accessType, allowed), key, accessType) == Some(Bool(true))
  {
  }

  /** A falsy `allowed` (false, 0, "", null, undefined, NaN) leaves the cell undefined. */
  lemma RevokeThenLookup(perms: Permissions, key: string, accessType: string, allowed: Value)
    requires !Truthy(allowed)
    ensures !Allowed(Lookup(Updated(perms, key, accessType, allowed), key, accessType))
    ensures Lookup(Updated(perms, key, accessType, allowed), key, accessType) == None
  {
  }

  /** Reading an unknown principal, or an access type its entry lacks, is falsy. */
  lemma UnknownIsFalsy(perms: Permissions, key: string, accessType: string)
    requires key !in perms || accessType !in perms[key]
    ensures !Allowed(Lookup(perms, key, accessType))
  {
  }

  /** Revoking for a principal without an entry changes nothing. */
  lemma RevokeAbsentIsNoOp(perms: Permissions, key: string, accessType: string, allowed: Value)
    requires key !in perms && !Truthy(allowed)
    ensures Updated(perms, key, accessType, allowed) == perms
  {
  }

  /**
   * Revoking for a present principal removes that one access type; its entry
   * survives even when it is left empty, and other principals are untouched.
   */
  lemma RevokePresent(perms: Permissions, key: string, accessType: string, allowed: Value)
    requires key in perms && !Truthy(allowed)
    ensures var r := Updated(perms, key, accessType, allowed);
      && r.Keys == perms.Keys
      && r[key] == perms[key] - {accessType}
      && (forall k :: k in perms && k != key ==> r[k] == perms[k])
  {
  }

  /** An update touches one (principal, access type) cell and no other. */
  lemma UpdateIsLocal(perms: Permissions, key: string, accessType: string, allowed: Value, key': string, accessType': string)
    requires key' != key || accessType' != accessType
    ensures Lookup(Updated(perms, key, accessType, allowed), key', accessType') == Lookup(perms, key', accessType')
  {
  }

  /** A role's key always carries the "role:" prefix, so no role shares the public entry. */
  lemma RoleIsNeverPublic(name: string)
    ensures PrincipalKey(Role(name)) != PrincipalKey(PublicPrincipal())
    ensures PrincipalKey(Role(name))[..5] == "role:"
  {
    assert PrincipalKey(Role(name))[0] == 'r';
  }

  /** Granting a role write access leaves what `getRoleWriteAccess` reads (the public entry) as it was. */
  lemma RoleWriteGrantIsInvisible(perms: Permissions, name: string)
    ensures Lookup(Updated(perms, PrincipalKey(Role(name)), WRITE, Bool(true)), PUBLIC, WRITE) == Lookup(perms, PUBLIC, WRITE)
  {
    RoleIsNeverPublic(name);
  }

  /** A user whose id is "1337" shares the public entry. */
  lemma UserWithPublicIdIsPublic()
    ensures PrincipalKey(User(PUBLIC)) == PrincipalKey(PublicPrincipal())
  {
  }

  class ACL {
    var permissions: Permissions

    constructor (init: AclInit)
      ensures init.FromUser? ==> permissions == map[init.id := map[READ := Bool(true), WRITE := Bool(true)]]
      ensures init.FromObject? ==> permissions == init.entries
      ensures init.NoPermissions? ==> permissions == map[]
    {
      permissions := map[];
      new;
      match init {
        case FromUser(id) =>
          SetReadAccess(User(id), Bool(true));
          SetWriteAccess(User(id), Bool(true));
        case FromObject(entries) =>
          var todo := entries.Keys;
          while todo != {}
            invariant todo <= entries.Keys
            invariant permissions.Keys == entries.Keys - todo
            invariant forall k :: k in permissions ==> permissions[k] == entries[k]
            decreases todo
          {
            var userId :| userId in todo;
            permissions := permissions[userId := entries[userId]];
            todo := todo - {userId};
          }
        case NoPermissions =>
      }
    }

    /** `_getAccess(accessType, userId)`. */
    function GetAccess(accessType: string, who: Principal): (r: Option<Value>)
      reads this
      ensures r.Some? <==> PrincipalKey(who) in permissions && accessType in permissions[PrincipalKey(who)]
      ensures r.Some? ==> r.value == permissions[PrincipalKey(who)][accessType]
    {
      Lookup(permissions, PrincipalKey(who), accessType)
    }

    /** `_setAccess(accessType, userId, allowed)`, including its delete on the inner map. */
    method SetAccess(accessType: string, who: Principal, allowed: Value)
      modifies this
      ensures permissions == Updated(old(permissions), PrincipalKey(who), accessType, allowed)
    {
      var userId := PrincipalKey(who);
      var grant := Truthy(allowed);
      ghost var before := permissions;
      if userId !in permissions {
        if !grant {
          return;
        }
        permissions := permissions[userId := map[]];
      }
      var entry := permissions[userId];
      if grant {
        assert entry == if userId in before then before[userId] else map[];
        GrantIsPut(before, userId, accessType, allowed);
        permissions := permissions[userId := entry[accessType := Bool(true)]];
      } else {
        assert userId in before && entry == before[userId];
        RevokeIsDelete(before, userId, accessType, allowed);
        entry := entry - {accessType};
        if |entry| == 0 {
          // `delete permissions[userId]` runs on the emptied inner map, not on the outer one
          EmptyEntry(entry, userId);
          entry := entry - {userId};
        }
        permissions := permissions[userId := entry];
      }
    }

    function GetPublicReadAccess(): (r: Option<Value>)
      reads this
      ensures r.Some? <==> PUBLIC in permissions && READ in permissions[PUBLIC]
      ensures r.Some? ==> r.value == permissions[PUBLIC][READ]
    {
      GetAccess(READ, PublicPrincipal())
    }

    method SetPublicReadAccess(allowed: Value)
      modifies this
      ensures permissions == Updated(old(permissions), PUBLIC, READ, allowed)
    {
      SetAccess(READ, PublicPrincipal(), allowed);
    }

    function GetRoleReadAccess(role: Principal): (r: Option<Value>)
      reads this
      ensures r.Some? <==> PrincipalKey(role) in permissions && READ in permissions[PrincipalKey(role)]
      ensures r.Some? ==> r.value == permissions[PrincipalKey(role)][READ]
    {
      GetAccess(READ, role)
    }

    method SetRoleReadAccess(role: Principal, allowed: Value)
      modifies this
      ensures permissions == Updated(old(permissions), PrincipalKey(role), READ, allowed)
    {
      SetAccess(READ, role, allowed);
    }

    function GetReadAccess(userId: Principal): (r: Option<Value>)
      reads this
      ensures r.Some? <==> PrincipalKey(userId) in permissions && READ in permissions[PrincipalKey(userId)]
      ensures r.Some? ==> r.value == permissions[PrincipalKey(userId)][READ]
    {
      GetAccess(READ, userId)
    }

    method SetReadAccess(userId: Principal, allowed: Value)
      modifies this
      ensures permissions == Updated(old(permissions), PrincipalKey(userId), READ, allowed)
    {
      SetAccess(READ, userId, allowed);
    }

    function GetWriteAccess(userId: Principal): (r: Option<Value>)
      reads this
      ensures r.Some? <==> PrincipalKey(userId) in permissions && WRITE in permissions[PrincipalKey(userId)]
      ensures r.Some? ==> r.value == permissions[PrincipalKey(userId)][WRITE]
    {
      GetAccess(WRITE, userId)
    }

    method SetWriteAccess(userId: Principal, allowed: Value)
      modifies this
      ensures permissions == Updated(old(permissions), PrincipalKey(userId), WRITE, allowed)
    {
      SetAccess(WRITE, userId, allowed);
    }

    function GetPublicWriteAccess(): (r: Option<Value>)
      reads this
      ensures r.Some? <==> PUBLIC in permissions && WRITE in permissions[PUBLIC]
      ensures r.Some? ==> r.value == permissions[PUBLIC][WRITE]
    {
      GetAccess(WRITE, PublicPrincipal())
    }

    method SetPublicWriteAccess(allowed: Value)
      modifies this
      ensures permissions == Updated(old(permissions), PUBLIC, WRITE, allowed)
    {
      SetAccess(WRITE, PublicPrincipal(), allowed);
    }

    /** Reads the public entry whatever role it is given. */
    function GetRoleWriteAccess(role: Principal): (r: Option<Value>)
      reads this
      ensures r == GetPublicWriteAccess()
      ensures PUBLIC !in permissions ==> r == None
    {
      GetAccess(WRITE, PublicPrincipal())
    }

    method SetRoleWriteAccess(role: Principal, allowed: Value)
      modifies this
      ensures permissions == Updated(old(permissions), PrincipalKey(role), WRITE, allowed)
    {
      SetAccess(WRITE, role, allowed);
    }
  }
}
