/**
 * The backend payload records that the authenticator reads: `PersonName`,
 * `UserMemberDTO` and `UserResponseDTO`, reduced to the accessors it uses.
 * Every reference-typed accessor may return null.
 */
module Dto {
  import opened Wrappers

  /** Java's `Integer`: a 32-bit two's-complement value. */
  type Int32 = x: int | -0x8000_0000 <= x < 0x8000_0000

  datatype PersonName = PersonName(firstName: Option<string>, lastName: Option<string>)

  /** One membership of a person in the backend. */
  datatype UserMember = UserMember(
    loginId: Option<string>,
    memberSeq: Option<string>,      // the accessor `getSeq()`; `seq` is a Dafny keyword
    employeeSeq: Option<string>,
    personName: Option<PersonName>,
    email: Option<string>,
    birthDay: Option<string>,
    mobileTelephoneNumber: Option<string>,
    telephoneNumber: Option<string>,
    faxNumber: Option<string>,
    positionCode: Option<string>,
    positionCodeName: Option<string>,
    dutyCode: Option<string>,
    dutyCodeName: Option<string>,
    mainWork: Option<string>,
    pictureFileId: Option<string>,
    groupSeq: Option<string>,
    bizSeq: Option<string>,
    companySeq: Option<string>,
    companyName: Option<string>,
    departmentSeq: Option<string>,
    departmentName: Option<string>,
    departmentAddress: Option<string>,
    departmentDetailAddress: Option<string>,
    departmentZipCode: Option<string>,
    depth: Option<Int32>,
    parentSeq: Option<string>,
    pathName: Option<string>)

  /** The profile answer: a member list that may itself be null. */
  datatype UserResponse = UserResponse(list: Option<seq<UserMember>>)

  /** The string-typed accessors of `UserMemberDTO` that the projection reads. */
  datatype MemberField =
      LoginId
    | MemberSeq
    | EmployeeSeq
    | Email
    | BirthDay
    | MobileTelephoneNumber
    | TelephoneNumber
    | FaxNumber
    | PositionCode
    | PositionCodeName
    | DutyCode
    | DutyCodeName
    | MainWork
    | PictureFileId
    | GroupSeq
    | BizSeq
    | CompanySeq
    | CompanyName
    | DepartmentSeq
    | DepartmentName
    | DepartmentAddress
    | DepartmentDetailAddress
    | DepartmentZipCode
    | ParentSeq
    | PathName

  function MemberText(m: UserMember, f: MemberField): Option<string> {
    match f
    case LoginId => m.loginId
    case MemberSeq => m.memberSeq
    case EmployeeSeq => m.employeeSeq
    case Email => m.email
    case BirthDay => m.birthDay
    case MobileTelephoneNumber => m.mobileTelephoneNumber
    case TelephoneNumber => m.telephoneNumber
    case FaxNumber => m.faxNumber
    case PositionCode => m.positionCode
    case PositionCodeName => m.positionCodeName
    case DutyCode => m.dutyCode
    case DutyCodeName => m.dutyCodeName
    case MainWork => m.mainWork
    case PictureFileId => m.pictureFileId
    case GroupSeq => m.groupSeq
    case BizSeq => m.bizSeq
    case CompanySeq => m.companySeq
    case CompanyName => m.companyName
    case DepartmentSeq => m.departmentSeq
    case DepartmentName => m.departmentName
    case DepartmentAddress => m.departmentAddress
    case DepartmentDetailAddress => m.departmentDetailAddress
    case DepartmentZipCode => m.departmentZipCode
    case ParentSeq => m.parentSeq
    case PathName => m.pathName
  }
}
