/**
 * The parts of the identity host that the authenticator drives: the user
 * record (`UserModel`), the user directory of one realm, realm role lookup,
 * and the authentication-flow context, which is modelled as the log of the
 * outcome calls made on it.
 */
module Host {
  import opened Wrappers

  /** Everything a host user record holds besides its (fixed) username. */
  datatype RecordValue = RecordValue(
    firstName: Option<string>,
    lastName: Option<string>,
    email: Option<string>,
    attributes: map<string, Option<string>>,
    enabled: bool,
    emailVerified: bool,
    roles: set<string>)

  /** A record as `addUser` creates it. */
  const NewRecord: RecordValue := RecordValue(None, None, None, map[], false, false, {})

  datatype RoleModel = RoleModel(name: string)

  /** A realm, reduced to the names of its roles. */
  datatype Realm = Realm(roleNames: set<string>) {
    /** `getRole(name)`: null when the realm has no such role. */
    function GetRole(name: string): Option<RoleModel> {
      if name in roleNames then Some(RoleModel(name)) else None
    }
  }

  class UserModel {
    const username: string
    var firstName: Option<string>
    var lastName: Option<string>
    var email: Option<string>
    var attributes: map<string, Option<string>>
    var enabled: bool
    var emailVerified: bool
    var roles: set<string>

    function Value(): RecordValue
      reads this
    {
      RecordValue(firstName, lastName, email, attributes, enabled, emailVerified, roles)
    }

    constructor (username: string)
      ensures this.username == username && Value() == NewRecord
    {
      this.username := username;
      firstName, lastName, email := None, None, None;
      attributes := map[];
      enabled, emailVerified := false, false;
      roles := {};
    }

    method SetFirstName(v: Option<string>)
      modifies this`firstName
      ensures firstName == v
    {
      firstName := v;
    }

    method SetLastName(v: Option<string>)
      modifies this`lastName
      ensures lastName == v
    {
      lastName := v;
    }

    method SetEmail(v: Option<string>)
      modifies this`email
      ensures email == v
    {
      email := v;
    }

    /** A single-valued attribute; a null value is stored as such. */
    method SetSingleAttribute(name: string, v: Option<string>)
      modifies this`attributes
      ensures attributes == old(attributes)[name := v]
    {
      attributes := attributes[name := v];
    }

    method SetEnabled(b: bool)
      modifies this`enabled
      ensures enabled == b
    {
      enabled := b;
    }

    method SetEmailVerified(b: bool)
      modifies this`emailVerified
      ensures emailVerified == b
    {
      emailVerified := b;
    }

    /**
     * `grantRole(role)`.  Granting a null role (a name the realm does not
     * know) throws, and the record is left as it was.
     */
    method GrantRole(role: Option<RoleModel>) returns (thrown: bool)
      modifies this`roles
      ensures thrown <==> role.None?
      ensures roles == if thrown then old(roles) else old(roles) + {role.value.name}
    {
      thrown := role.None?;
      if !thrown {
        roles := roles + {role.value.name};
      }
    }
  }

  /** The realm's user directory: records keyed by username. */
  class Directory {
    var users: map<string, UserModel>

    /** An empty directory. */
    constructor ()
      ensures users == map[] && Valid()
    {
      users := map[];
    }

    /** Each record sits under its own username, so distinct keys hold distinct records. */
    ghost predicate Valid()
      reads this
    {
      forall k :: k in users ==> users[k].username == k
    }

    /** The directory's contents as values. */
    ghost function View(): map<string, RecordValue>
      reads this, users.Values
    {
      map k | k in users :: users[k].Value()
    }

    /** `getUserByUsername(realm, name)`. */
    method GetUserByUsername(name: string) returns (r: UserModel?)
      ensures r == if name in users then users[name] else null
    {
      r := if name in users then users[name] else null;
    }

    /** `addUser(realm, name)`; the host refuses a username it already holds. */
    method AddUser(name: string) returns (r: UserModel)
      requires Valid() && name !in users
      modifies this
      ensures Valid()
      ensures fresh(r) && r.username == name && r.Value() == NewRecord
      ensures users == old(users)[name := r]
    {
      r := new UserModel(name);
      users := users[name := r];
    }
  }

  datatype FlowError = InvalidUser | InternalError

  /** An HTTP response: a status code and an entity body. */
  datatype Response = Response(status: int, entity: string)

  /** One call made on the flow context. */
  datatype FlowCall = Failed(error: FlowError, response: Option<Response>) | UserSet(username: string) | Succeeded

  /** `AuthenticationFlowContext`, reduced to the outcome calls made on it, in order. */
  class FlowContext {
    var calls: seq<FlowCall>

    constructor ()
      ensures calls == []
    {
      calls := [];
    }

    /** `failure(error)`. */
    method Failure(error: FlowError)
      modifies this
      ensures calls == old(calls) + [Failed(error, None)]
    {
      calls := calls + [Failed(error, None)];
    }

    /** `failure(error, response)`. */
    method FailureWithResponse(error: FlowError, response: Response)
      modifies this
      ensures calls == old(calls) + [Failed(error, Some(response))]
    {
      calls := calls + [Failed(error, Some(response))];
    }

    /** `setUser(user)`; the record is identified by its username. */
    method SetUser(user: UserModel)
      modifies this
      ensures calls == old(calls) + [UserSet(user.username)]
    {
      calls := calls + [UserSet(user.username)];
    }

    /** `success()`. */
    method Success()
      modifies this
      ensures calls == old(calls) + [Succeeded]
    {
      calls := calls + [Succeeded];
    }
  }
}
