/**
 * `callExternalApi`: obtain a token, fetch the profile, pick the first
 * member whose login id equals the form username ignoring case, and build
 * a `User` from it.  `Project` is the same computation on values; the
 * method builds the object through the constructor and setters.
 */
module Projector {
  import opened Wrappers
  import opened Text
  import opened Dto
  import opened UserDto
  import opened Backend

  /** The one role every projected user is given. */
  const DefaultRole: string := "default-roles-ezcaretech"

  /** The stream filter: `username.equalsIgnoreCase(member.getLoginId())` (false for a null login id). */
  predicate Matches(username: string, m: UserMember) {
    m.loginId.Some? && EqualsIgnoreCase(username, m.loginId.value)
  }

  /** `filter(...).findFirst()`: the index of the first matching member, if any. */
  function FirstMatch(username: string, ms: seq<UserMember>): (r: Option<nat>)
    ensures r.Some? ==> r.value < |ms| && Matches(username, ms[r.value])
    ensures r.Some? ==> forall j :: 0 <= j < r.value ==> !Matches(username, ms[j])
    ensures r.None? <==> forall j :: 0 <= j < |ms| ==> !Matches(username, ms[j])
  {
    if ms == [] then None
    else if Matches(username, ms[0]) then Some(0)
    else match FirstMatch(username, ms[1..])
      case None => None
      case Some(k) => Some(k + 1)
  }

  /** The member list a profile reply carries: absent for an exception, a null response or a null list. */
  function MemberList(reply: Reply<Option<UserResponse>>): Option<seq<UserMember>> {
    if reply.Returned? && reply.value.Some? then reply.value.value.list else None
  }

  /**
   * What the source needs of its input and does not check: once a token
   * came back, the selected member's person name is not null (it is
   * dereferenced at once). Without a token the profile is never read.
   */
  predicate NameAvailable(username: string, tokenReply: Reply<Option<string>>, reply: Reply<Option<UserResponse>>) {
    tokenReply.Returned? && tokenReply.value.Some? ==>
    match MemberList(reply)
    case None => true
    case Some(ms) =>
      match FirstMatch(username, ms)
      case None => true
      case Some(i) => ms[i].personName.Some?
  }

  /** The `User` the five-argument constructor and the 24 setters build from a member. */
  function ProjectMember(m: UserMember): UserValue
    requires m.personName.Some?
  {
    NullUser.(
      username := m.loginId,
      firstName := m.personName.value.firstName,
      lastName := m.personName.value.lastName,
      email := m.email,
      roles := Some([DefaultRole]),
      userSeq := m.memberSeq,
      employeeSeq := m.employeeSeq,
      birthDay := m.birthDay,
      mobileTelephoneNumber := m.mobileTelephoneNumber,
      innerTelephoneNumber := m.telephoneNumber,
      faxTelephoneNumber := m.faxNumber,
      positionCode := m.positionCode,
      positionName := m.positionCodeName,
      dutyCode := m.dutyCode,
      dutyName := m.dutyCodeName,
      mainWork := m.mainWork,
      pictureFileId := m.pictureFileId,
      groupSeq := m.groupSeq,
      bizSeq := m.bizSeq,
      companySeq := m.companySeq,
      companyName := m.companyName,
      departmentSeq := m.departmentSeq,
      departmentName := m.departmentName,
      departmentAddress := m.departmentAddress,
      departmentDetailAddress := m.departmentDetailAddress,
      departmentZipCode := m.departmentZipCode,
      departmentDepth := m.depth,
      parentSeq := m.parentSeq,
      pathName := m.pathName)
  }

  /** How `callExternalApi` ends: it throws `IOException`, returns null, or returns a user. */
  datatype Projection = Threw | NoUser | Projected(user: UserValue)

  function Project(username: string, tokenReply: Reply<Option<string>>,
                   profileReply: Reply<Option<UserResponse>>): (p: Projection)
    requires NameAvailable(username, tokenReply, profileReply)
    ensures p.Projected? ==> p.user.username.Some? && EqualsIgnoreCase(username, p.user.username.value)
    ensures p.Projected? ==> p.user.roles == Some([DefaultRole])
  {
    match tokenReply
    case IOFailure => Threw
    case Returned(None) => NoUser
    case Returned(Some(_)) =>
      if profileReply.IOFailure? then Threw
      else match MemberList(profileReply)
        case None => NoUser
        case Some(ms) =>
          match FirstMatch(username, ms)
          case None => NoUser
          case Some(i) => Projected(ProjectMember(ms[i]))
  }

  /** The calls made on the backend: the profile is fetched only with a token in hand. */
  function BackendRequests(username: string, password: string, tokenReply: Reply<Option<string>>): seq<Request> {
    [TokenRequest(username, password)]
      + if tokenReply.Returned? && tokenReply.value.Some? then [ProfileRequest(tokenReply.value.value)] else []
  }

  method CallExternalApi(api: ExternalApi, username: string, password: string) returns (thrown: bool, user: User?)
    requires NameAvailable(username, api.tokenReply, api.profileReply)
    modifies api
    ensures api.requests == old(api.requests) + BackendRequests(username, password, api.tokenReply)
    ensures thrown <==> Project(username, api.tokenReply, api.profileReply).Threw?
    ensures user != null <==> Project(username, api.tokenReply, api.profileReply).Projected?
    ensures user != null ==> fresh(user) && user.Value() == Project(username, api.tokenReply, api.profileReply).user
  {
    var token := api.GetToken(username, password);
    if token.IOFailure? {
      return true, null;
    }
    if token.value.None? {
      return false, null;
    }
    var response := api.GetProfile(token.value.value);
    if response.IOFailure? {
      return true, null;
    }
    if response.value.None? {
      return false, null;
    }
    var members := response.value.value.list;
    if members.None? {
      return false, null;
    }
    var found := FirstMatch(username, members.value);
    if found.None? {
      return false, null;
    }
    var member := members.value[found.value];
    var personName := member.personName.value;
    user := new User(member.loginId, personName.firstName, personName.lastName, member.email, Some([DefaultRole]));
    user.SetUserSeq(member.memberSeq);
    user.SetEmployeeSeq(member.employeeSeq);
    user.SetBirthDay(member.birthDay);
    user.SetMobileTelephoneNumber(member.mobileTelephoneNumber);
    user.SetInnerTelephoneNumber(member.telephoneNumber);
    user.SetFaxTelephoneNumber(member.faxNumber);
    user.SetPositionCode(member.positionCode);
    user.SetPositionName(member.positionCodeName);
    user.SetDutyCode(member.dutyCode);
    user.SetDutyName(member.dutyCodeName);
    user.SetMainWork(member.mainWork);
    user.SetPictureFileId(member.pictureFileId);
    user.SetGroupSeq(member.groupSeq);
    user.SetBizSeq(member.bizSeq);
    user.SetCompanySeq(member.companySeq);
    user.SetCompanyName(member.companyName);
    user.SetDepartmentSeq(member.departmentSeq);
    user.SetDepartmentName(member.departmentName);
    user.SetDepartmentAddress(member.departmentAddress);
    user.SetDepartmentDetailAddress(member.departmentDetailAddress);
    user.SetDepartmentZipCode(member.departmentZipCode);
    user.SetDepartmentDepth(member.depth);
    user.SetParentSeq(member.parentSeq);
    user.SetPathName(member.pathName);
    thrown := false;
  }

  // -----------------------------------------------------------------------
  // The renaming table, written as data
  // -----------------------------------------------------------------------

  /** Where a string field of the projected user comes from. */
  datatype Origin = FromMember(field: MemberField) | FromPersonFirstName | FromPersonLastName | NeverSet

  function OriginOf(f: UserField): Origin {
    match f
    case Username => FromMember(LoginId)
    case FirstName => FromPersonFirstName
    case LastName => FromPersonLastName
    case Email => FromMember(MemberField.Email)
    case UserSeq => FromMember(MemberSeq)
    case EmployeeSeq => FromMember(MemberField.EmployeeSeq)
    case BirthDay => FromMember(MemberField.BirthDay)
    case Gender => NeverSet
    case MobileTelephoneNumber => FromMember(MemberField.MobileTelephoneNumber)
    case InnerTelephoneNumber => FromMember(TelephoneNumber)
    case FaxTelephoneNumber => FromMember(FaxNumber)
    case PositionCode => FromMember(MemberField.PositionCode)
    case PositionName => FromMember(PositionCodeName)
    case DutyCode => FromMember(MemberField.DutyCode)
    case DutyName => FromMember(DutyCodeName)
    case MainWork => FromMember(MemberField.MainWork)
    case PictureFileId => FromMember(MemberField.PictureFileId)
    case GroupSeq => FromMember(MemberField.GroupSeq)
    case BizSeq => FromMember(MemberField.BizSeq)
    case CompanySeq => FromMember(MemberField.CompanySeq)
    case CompanyName => FromMember(MemberField.CompanyName)
    case DepartmentSeq => FromMember(MemberField.DepartmentSeq)
    case DepartmentName => FromMember(MemberField.DepartmentName)
    case DepartmentAddress => FromMember(MemberField.DepartmentAddress)
    case DepartmentDetailAddress => FromMember(MemberField.DepartmentDetailAddress)
    case DepartmentZipCode => FromMember(MemberField.DepartmentZipCode)
    case ParentSeq => FromMember(MemberField.ParentSeq)
    case PathName => FromMember(MemberField.PathName)
  }

  function OriginValue(m: UserMember, o: Origin): Option<string>
    requires m.personName.Some?
  {
    match o
    case FromMember(f) => MemberText(m, f)
    case FromPersonFirstName => m.personName.value.firstName
    case FromPersonLastName => m.personName.value.lastName
    case NeverSet => None
  }

  /**
   * Every string field of the projected user holds what the renaming table
   * names; the depth is copied, and the roles are the fixed one-element list.
   */
  lemma ProjectionFollowsRenameTable(m: UserMember)
    requires m.personName.Some?
    ensures forall f :: FieldText(ProjectMember(m), f) == OriginValue(m, OriginOf(f))
    ensures ProjectMember(m).departmentDepth == m.depth
    ensures ProjectMember(m).roles == Some([DefaultRole])
  {
    forall f ensures FieldText(ProjectMember(m), f) == OriginValue(m, OriginOf(f)) {
      match f
      case _ =>
    }
  }

  // -----------------------------------------------------------------------
  // Properties of the projection
  // -----------------------------------------------------------------------

  /** When the call throws: an `IOException` from either remote call, and from the profile call only after a token. */
  lemma ThrowsOnlyOnIOFailure(username: string, tokenReply: Reply<Option<string>>,
                              profileReply: Reply<Option<UserResponse>>)
    requires NameAvailable(username, tokenReply, profileReply)
    ensures Project(username, tokenReply, profileReply).Threw? <==>
              tokenReply.IOFailure? || (tokenReply.Returned? && tokenReply.value.Some? && profileReply.IOFailure?)
  {
  }

  /** A null token, a null response or a null member list give no user. */
  lemma MissingInputGivesNoUser(username: string, tokenReply: Reply<Option<string>>,
                                profileReply: Reply<Option<UserResponse>>)
    requires tokenReply == Returned(None)
          || (tokenReply.Returned? && tokenReply.value.Some? && profileReply.Returned? && MemberList(profileReply).None?)
    ensures Project(username, tokenReply, profileReply) == NoUser
  {
  }

  /**
   * A user is produced exactly when a token came back and the member list
   * holds a matching member; it is the projection of the FIRST such member.
   */
  lemma ProjectsFirstMatchingMember(username: string, tokenReply: Reply<Option<string>>,
                                    profileReply: Reply<Option<UserResponse>>)
    requires NameAvailable(username, tokenReply, profileReply)
    ensures Project(username, tokenReply, profileReply).Projected? <==>
              && tokenReply.Returned? && tokenReply.value.Some?
              && MemberList(profileReply).Some?
              && exists i :: 0 <= i < |MemberList(profileReply).value| && Matches(username, MemberList(profileReply).value[i])
    ensures Project(username, tokenReply, profileReply).Projected? ==>
              var ms := MemberList(profileReply).value;
              exists i :: && 0 <= i < |ms| && Matches(username, ms[i])
                          && (forall j :: 0 <= j < i ==> !Matches(username, ms[j]))
                          && ms[i].personName.Some?
                          && Project(username, tokenReply, profileReply).user == ProjectMember(ms[i])
  {
    if Project(username, tokenReply, profileReply).Projected? {
      var ms := MemberList(profileReply).value;
      var i := FirstMatch(username, ms).value;
      assert Matches(username, ms[i]);
    }
  }

  /** The projected username is the member's login id in the backend's casing. */
  lemma ProjectedUsernameIsLoginId(username: string, tokenReply: Reply<Option<string>>,
                                   profileReply: Reply<Option<UserResponse>>)
    requires NameAvailable(username, tokenReply, profileReply)
    requires Project(username, tokenReply, profileReply).Projected?
    ensures var u := Project(username, tokenReply, profileReply).user;
            exists m :: m in MemberList(profileReply).value && u.username == m.loginId && Matches(username, m)
  {
    var ms := MemberList(profileReply).value;
    var i := FirstMatch(username, ms).value;
    assert ms[i] in ms;
  }

  lemma {:induction false} FirstMatchIgnoresCase(a: string, b: string, ms: seq<UserMember>)
    requires EqualsIgnoreCase(a, b)
    ensures FirstMatch(a, ms) == FirstMatch(b, ms)
    decreases |ms|
  {
    if ms != [] {
      var m := ms[0];
      if m.loginId.Some? {
        EqualsIgnoreCaseSymmetric(a, b);
        if EqualsIgnoreCase(a, m.loginId.value) {
          EqualsIgnoreCaseTransitive(b, a, m.loginId.value);
        }
        if EqualsIgnoreCase(b, m.loginId.value) {
          EqualsIgnoreCaseTransitive(a, b, m.loginId.value);
        }
      }
      FirstMatchIgnoresCase(a, b, ms[1..]);
    }
  }

  /** Typing the username in another case selects the same member and gives the same user. */
  lemma ProjectIgnoresCase(a: string, b: string, tokenReply: Reply<Option<string>>,
                           profileReply: Reply<Option<UserResponse>>)
    requires EqualsIgnoreCase(a, b)
    requires NameAvailable(a, tokenReply, profileReply)
    ensures NameAvailable(b, tokenReply, profileReply)
    ensures Project(a, tokenReply, profileReply) == Project(b, tokenReply, profileReply)
  {
    if MemberList(profileReply).Some? {
      FirstMatchIgnoresCase(a, b, MemberList(profileReply).value);
    }
  }
}
