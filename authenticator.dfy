/**
 * The login step as a whole: read the submitted credentials, ask the
 * backend for the member, synchronise the directory record, and report the
 * outcome to the flow. The outcome is reported exactly as the step is
 * written, including its two quirks: an I/O failure is reported as an
 * internal error and then as an invalid user, and a failure during the
 * synchronisation is reported as an internal error followed by success.
 */
module Authenticator {
  import opened Wrappers
  import opened Text
  import opened UserDto
  import opened Backend
  import opened Host
  import opened Projector
  import opened Synchroniser
  import Dto

  /** The response sent back when no user could be authenticated. */
  const Unauthorized: Response := Response(401, "You must be authenticated to access this resource.")

  /** The directory and the calls made on the flow after one login attempt. */
  datatype Outcome = Outcome(users: map<string, RecordValue>, calls: seq<FlowCall>)

  /**
   * What one login attempt does to the directory and which calls it makes
   * on the flow, given the backend's replies and the directory before it.
   */
  function Step(username: string, tokenReply: Reply<Option<string>>, profileReply: Reply<Option<Dto.UserResponse>>,
                users: map<string, RecordValue>, realm: Realm): (o: Outcome)
    requires NameAvailable(username, tokenReply, profileReply)
    ensures |o.calls| == 1 || |o.calls| == 2
    ensures o.calls[|o.calls| - 1] == Succeeded || o.calls[|o.calls| - 1] == Failed(InvalidUser, Some(Unauthorized))
  {
    match Project(username, tokenReply, profileReply)
    case Threw => Outcome(users, [Failed(InternalError, None), Failed(InvalidUser, Some(Unauthorized))])
    case NoUser => Outcome(users, [Failed(InvalidUser, Some(Unauthorized))])
    case Projected(u) =>
      var (after, thrown) := SyncDirectory(users, u, realm);
      if thrown then Outcome(after, [Failed(InternalError, None), Succeeded])
      else Outcome(after, [UserSet(u.username.value), Succeeded])
  }

  /**
   * The branch taken when the backend yielded a user: synchronise its
   * record, report an internal error if that failed or set the user
   * otherwise, and report success in either case.
   */
  method SyncAndSucceed(ctx: FlowContext, dir: Directory, realm: Realm, user: User)
    requires dir.Valid() && user.username.Some?
    modifies ctx, dir, dir.users.Values
    ensures dir.Valid()
    ensures dir.View() == SyncDirectory(old(dir.View()), user.Value(), realm).0
    ensures ctx.calls == old(ctx.calls) +
              (if SyncDirectory(old(dir.View()), user.Value(), realm).1 then [Failed(InternalError, None)]
               else [UserSet(user.username.value)]) + [Succeeded]
  {
    ghost var u := user.Value();
    ghost var result := SyncDirectory(dir.View(), u, realm);
    var record, failed := SyncUser(dir, user, realm);
    assert user.Value() == u;
    ghost var after := dir.View();
    assert after == result.0 && failed == result.1;
    assert record.username == u.username.value;
    if failed {
      ctx.Failure(InternalError);
    } else {
      ctx.SetUser(record);
    }
    ctx.Success();
    assert dir.View() == after;
  }

  /**
   * One login attempt. The submitted username and password are the form's
   * first values for those names; the backend, the directory and the flow
   * are the objects the step talks to.
   */
  method Authenticate(ctx: FlowContext, dir: Directory, realm: Realm, api: ExternalApi, username: string, password: string)
    requires dir.Valid() && NameAvailable(username, api.tokenReply, api.profileReply)
    modifies ctx, api, dir, dir.users.Values
    ensures dir.Valid()
    ensures api.requests == old(api.requests) + BackendRequests(username, password, api.tokenReply)
    ensures dir.View() == Step(username, api.tokenReply, api.profileReply, old(dir.View()), realm).users
    ensures ctx.calls == old(ctx.calls) + Step(username, api.tokenReply, api.profileReply, old(dir.View()), realm).calls
  {
    ghost var start := dir.View();
    var thrown, user := CallExternalApi(api, username, password);
    assert dir.View() == start;
    if thrown {
      ctx.Failure(InternalError);
    }
    if user != null {
      SyncAndSucceed(ctx, dir, realm, user);
    } else {
      ctx.FailureWithResponse(InvalidUser, Unauthorized);
      assert dir.View() == start;
    }
  }

  /** The step runs before any user is identified. */
  function RequiresUser(): (r: bool)
    ensures !r
  {
    false
  }

  /** The step is available in every realm and for every user. */
  function ConfiguredFor(realm: Realm, user: Option<RecordValue>): (r: bool)
    ensures r
  {
    true
  }

  // -----------------------------------------------------------------------
  // Properties of the outcome
  // -----------------------------------------------------------------------

  /** The attempt ends in success exactly when the backend yielded a user. */
  lemma SucceedsExactlyWhenProjected(username: string, tokenReply: Reply<Option<string>>,
                                     profileReply: Reply<Option<Dto.UserResponse>>,
                                     users: map<string, RecordValue>, realm: Realm)
    requires NameAvailable(username, tokenReply, profileReply)
    ensures var o := Step(username, tokenReply, profileReply, users, realm);
      (Succeeded in o.calls <==> Project(username, tokenReply, profileReply).Projected?) &&
      (Failed(InvalidUser, Some(Unauthorized)) in o.calls <==> !Project(username, tokenReply, profileReply).Projected?)
  {
  }

  /** A rejected attempt leaves the directory as it was and answers 401. */
  lemma RejectionLeavesDirectory(username: string, tokenReply: Reply<Option<string>>,
                                 profileReply: Reply<Option<Dto.UserResponse>>,
                                 users: map<string, RecordValue>, realm: Realm)
    requires NameAvailable(username, tokenReply, profileReply)
    requires !Project(username, tokenReply, profileReply).Projected?
    ensures var o := Step(username, tokenReply, profileReply, users, realm);
      o.users == users && o.calls[|o.calls| - 1] == Failed(InvalidUser, Some(Unauthorized)) &&
      Succeeded !in o.calls && forall name :: UserSet(name) !in o.calls
  {
  }

  /**
   * An I/O failure on either backend call is reported twice: first as an
   * internal error, then as an invalid user with the 401 response.
   */
  lemma IOFailureReportedTwice(username: string, tokenReply: Reply<Option<string>>,
                               profileReply: Reply<Option<Dto.UserResponse>>,
                               users: map<string, RecordValue>, realm: Realm)
    requires tokenReply.IOFailure? || (tokenReply.value.Some? && profileReply.IOFailure?)
    ensures Step(username, tokenReply, profileReply, users, realm) ==
              Outcome(users, [Failed(InternalError, None), Failed(InvalidUser, Some(Unauthorized))])
  {
    ThrowsOnlyOnIOFailure(username, tokenReply, profileReply);
  }

  /** Without a token the attempt is rejected once, with the 401 response. */
  lemma NoTokenRejected(username: string, profileReply: Reply<Option<Dto.UserResponse>>,
                        users: map<string, RecordValue>, realm: Realm)
    ensures Step(username, Returned(None), profileReply, users, realm) ==
              Outcome(users, [Failed(InvalidUser, Some(Unauthorized))])
  {
    MissingInputGivesNoUser(username, Returned(None), profileReply);
  }

  /**
   * Only the role grant can fault in this model, so the synchronisation
   * fails exactly when the realm lacks the default role,
   * and then the step reports an internal error followed by success, without
   * setting the user, while keeping what was written before the failure.
   */
  lemma SyncFaultStillSucceeds(username: string, tokenReply: Reply<Option<string>>,
                               profileReply: Reply<Option<Dto.UserResponse>>,
                               users: map<string, RecordValue>, realm: Realm)
    requires NameAvailable(username, tokenReply, profileReply)
    requires Project(username, tokenReply, profileReply).Projected?
    ensures var o := Step(username, tokenReply, profileReply, users, realm);
      var u := Project(username, tokenReply, profileReply).user;
      (o.calls == [Failed(InternalError, None), Succeeded] <==> DefaultRole !in realm.roleNames) &&
      (DefaultRole !in realm.roleNames ==> o.users == SyncDirectory(users, u, realm).0)
  {
    var u := Project(username, tokenReply, profileReply).user;
    var r := RecordBefore(users, u.username.value);
    SyncedRecord(r, u, realm);
    assert u.roles.value == [DefaultRole];
    if DefaultRole !in realm.roleNames {
      assert u.roles.value[0] !in realm.roleNames;
    }
  }

  /**
   * A clean login leaves the directory holding an enabled, verified record
   * for the matched member's login id, with the member's names, email and
   * attributes and the default role, and sets that user on the flow.
   */
  lemma CleanLoginSetsSyncedUser(username: string, tokenReply: Reply<Option<string>>,
                                 profileReply: Reply<Option<Dto.UserResponse>>,
                                 users: map<string, RecordValue>, realm: Realm)
    requires NameAvailable(username, tokenReply, profileReply)
    requires Project(username, tokenReply, profileReply).Projected?
    requires DefaultRole in realm.roleNames
    ensures var o := Step(username, tokenReply, profileReply, users, realm);
      var u := Project(username, tokenReply, profileReply).user;
      var name := u.username.value;
      && EqualsIgnoreCase(username, name)
      && o.calls == [UserSet(name), Succeeded]
      && name in o.users
      && o.users[name].enabled && o.users[name].emailVerified
      && o.users[name].firstName == u.firstName && o.users[name].lastName == u.lastName
      && o.users[name].email == u.email
      && o.users[name].attributes == WriteAttributes(RecordBefore(users, name).attributes, u)
      && o.users[name].roles == RecordBefore(users, name).roles + {DefaultRole}
  {
    var u := Project(username, tokenReply, profileReply).user;
    var r := RecordBefore(users, u.username.value);
    SyncedRecord(r, u, realm);
    assert u.roles.value == [DefaultRole];
    assert (set x | x in u.roles.value) == {DefaultRole};
  }

  /** Repeating the same login gives the same calls and the same directory. */
  lemma StepIdempotent(username: string, tokenReply: Reply<Option<string>>,
                       profileReply: Reply<Option<Dto.UserResponse>>,
                       users: map<string, RecordValue>, realm: Realm)
    requires NameAvailable(username, tokenReply, profileReply)
    ensures var once := Step(username, tokenReply, profileReply, users, realm);
      Step(username, tokenReply, profileReply, once.users, realm) == once
  {
    if Project(username, tokenReply, profileReply).Projected? {
      SyncDirectoryIdempotent(users, Project(username, tokenReply, profileReply).user, realm);
    }
  }

  /** The submitted username is compared with the login ids without regard to ASCII case. */
  lemma StepIgnoresCase(a: string, b: string, tokenReply: Reply<Option<string>>,
                        profileReply: Reply<Option<Dto.UserResponse>>,
                        users: map<string, RecordValue>, realm: Realm)
    requires EqualsIgnoreCase(a, b)
    requires NameAvailable(a, tokenReply, profileReply)
    ensures NameAvailable(b, tokenReply, profileReply)
    ensures Step(a, tokenReply, profileReply, users, realm) == Step(b, tokenReply, profileReply, users, realm)
  {
    ProjectIgnoresCase(a, b, tokenReply, profileReply);
  }

  /** A login touches only the record of the matched login id. */
  lemma StepTouchesOneUser(username: string, tokenReply: Reply<Option<string>>,
                           profileReply: Reply<Option<Dto.UserResponse>>,
                           users: map<string, RecordValue>, realm: Realm)
    requires NameAvailable(username, tokenReply, profileReply)
    ensures var o := Step(username, tokenReply, profileReply, users, realm);
      var p := Project(username, tokenReply, profileReply);
      && |o.users| <= |users| + 1
      && (forall k :: k in users ==> k in o.users && (o.users[k] == users[k] || (p.Projected? && k == p.user.username.value)))
      && (forall k :: k in o.users && k !in users ==> p.Projected? && k == p.user.username.value)
  {
    if Project(username, tokenReply, profileReply).Projected? {
      SyncDirectoryTouchesOneUser(users, Project(username, tokenReply, profileReply).user, realm);
    }
  }
}
