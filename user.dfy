/**
 * The projected user record (`User`): thirty nullable fields, a no-argument
 * constructor, a five-argument constructor and one generated setter per field.
 * `UserValue` is the record's value at one moment; `UserField` names its
 * string-valued fields so that tables over them can be written down.
 */
module UserDto {
  import opened Wrappers
  import opened Dto

  /** The contents of a `User` object. */
  datatype UserValue = UserValue(
    username: Option<string>,
    firstName: Option<string>,
    lastName: Option<string>,
    email: Option<string>,
    roles: Option<seq<string>>,
    userSeq: Option<string>,
    employeeSeq: Option<string>,
    birthDay: Option<string>,
    gender: Option<string>,
    mobileTelephoneNumber: Option<string>,
    innerTelephoneNumber: Option<string>,
    faxTelephoneNumber: Option<string>,
    positionCode: Option<string>,
    positionName: Option<string>,
    dutyCode: Option<string>,
    dutyName: Option<string>,
    mainWork: Option<string>,
    pictureFileId: Option<string>,
    groupSeq: Option<string>,
    bizSeq: Option<string>,
    companySeq: Option<string>,
    companyName: Option<string>,
    departmentSeq: Option<string>,
    departmentName: Option<string>,
    departmentAddress: Option<string>,
    departmentDetailAddress: Option<string>,
    departmentZipCode: Option<string>,
    departmentDepth: Option<Int32>,
    parentSeq: Option<string>,
    pathName: Option<string>)

  /** Every field null: what `new User()` holds, since no field has an initialiser. */
  const NullUser: UserValue := UserValue(None, None, None, None, None, None, None, None, None, None, None, None, None, None, None, None, None, None, None, None, None, None, None, None, None, None, None, None, None, None)

  /** The string-typed fields of `User`; `departmentDepth` (an `Integer`) and `roles` (a list) are the others. */
  datatype UserField =
      Username
    | FirstName
    | LastName
    | Email
    | UserSeq
    | EmployeeSeq
    | BirthDay
    | Gender
    | MobileTelephoneNumber
    | InnerTelephoneNumber
    | FaxTelephoneNumber
    | PositionCode
    | PositionName
    | DutyCode
    | DutyName
    | MainWork
    | PictureFileId
    | GroupSeq
    | BizSeq
    | CompanySeq
    | CompanyName
    | DepartmentSeq
    | DepartmentName
    | DepartmentAddress
    | DepartmentDetailAddress
    | DepartmentZipCode
    | ParentSeq
    | PathName

  /** The value of a string-typed field. */
  function FieldText(u: UserValue, f: UserField): Option<string> {
    match f
    case Username => u.username
    case FirstName => u.firstName
    case LastName => u.lastName
    case Email => u.email
    case UserSeq => u.userSeq
    case EmployeeSeq => u.employeeSeq
    case BirthDay => u.birthDay
    case Gender => u.gender
    case MobileTelephoneNumber => u.mobileTelephoneNumber
    case InnerTelephoneNumber => u.innerTelephoneNumber
    case FaxTelephoneNumber => u.faxTelephoneNumber
    case PositionCode => u.positionCode
    case PositionName => u.positionName
    case DutyCode => u.dutyCode
    case DutyName => u.dutyName
    case MainWork => u.mainWork
    case PictureFileId => u.pictureFileId
    case GroupSeq => u.groupSeq
    case BizSeq => u.bizSeq
    case CompanySeq => u.companySeq
    case CompanyName => u.companyName
    case DepartmentSeq => u.departmentSeq
    case DepartmentName => u.departmentName
    case DepartmentAddress => u.departmentAddress
    case DepartmentDetailAddress => u.departmentDetailAddress
    case DepartmentZipCode => u.departmentZipCode
    case ParentSeq => u.parentSeq
    case PathName => u.pathName
  }

  class User {
    var username: Option<string>
    var firstName: Option<string>
    var lastName: Option<string>
    var email: Option<string>
    var roles: Option<seq<string>>
    var userSeq: Option<string>
    var employeeSeq: Option<string>
    var birthDay: Option<string>
    var gender: Option<string>
    var mobileTelephoneNumber: Option<string>
    var innerTelephoneNumber: Option<string>
    var faxTelephoneNumber: Option<string>
    var positionCode: Option<string>
    var positionName: Option<string>
    var dutyCode: Option<string>
    var dutyName: Option<string>
    var mainWork: Option<string>
    var pictureFileId: Option<string>
    var groupSeq: Option<string>
    var bizSeq: Option<string>
    var companySeq: Option<string>
    var companyName: Option<string>
    var departmentSeq: Option<string>
    var departmentName: Option<string>
    var departmentAddress: Option<string>
    var departmentDetailAddress: Option<string>
    var departmentZipCode: Option<string>
    var departmentDepth: Option<Int32>
    var parentSeq: Option<string>
    var pathName: Option<string>

    function Value(): UserValue
      reads this
    {
      UserValue(username, firstName, lastName, email, roles, userSeq, employeeSeq, birthDay, gender, mobileTelephoneNumber, innerTelephoneNumber, faxTelephoneNumber, positionCode, positionName, dutyCode, dutyName, mainWork, pictureFileId, groupSeq, bizSeq, companySeq, companyName, departmentSeq, departmentName, departmentAddress, departmentDetailAddress, departmentZipCode, departmentDepth, parentSeq, pathName)
    }

    /** `new User()`. */
    constructor Empty()
      ensures Value() == NullUser
    {
      username := None;
      firstName := None;
      lastName := None;
      email := None;
      roles := None;
      userSeq := None;
      employeeSeq := None;
      birthDay := None;
      gender := None;
      mobileTelephoneNumber := None;
      innerTelephoneNumber := None;
      faxTelephoneNumber := None;
      positionCode := None;
      positionName := None;
      dutyCode := None;
      dutyName := None;
      mainWork := None;
      pictureFileId := None;
      groupSeq := None;
      bizSeq := None;
      companySeq := None;
      companyName := None;
      departmentSeq := None;
      departmentName := None;
      departmentAddress := None;
      departmentDetailAddress := None;
      departmentZipCode := None;
      departmentDepth := None;
      parentSeq := None;
      pathName := None;
    }

    /** `new User(username, firstName, lastName, email, roles)`: the roles list is stored as given. */
    constructor (username: Option<string>, firstName: Option<string>, lastName: Option<string>,
                 email: Option<string>, roles: Option<seq<string>>)
      ensures Value() == NullUser.(username := username, firstName := firstName, lastName := lastName,
                                   email := email, roles := roles)
    {
      this.username := username;
      this.firstName := firstName;
      this.lastName := lastName;
      this.email := email;
      this.roles := roles;
      this.userSeq := None;
      this.employeeSeq := None;
      this.birthDay := None;
      this.gender := None;
      this.mobileTelephoneNumber := None;
      this.innerTelephoneNumber := None;
      this.faxTelephoneNumber := None;
      this.positionCode := None;
      this.positionName := None;
      this.dutyCode := None;
      this.dutyName := None;
      this.mainWork := None;
      this.pictureFileId := None;
      this.groupSeq := None;
      this.bizSeq := None;
      this.companySeq := None;
      this.companyName := None;
      this.departmentSeq := None;
      this.departmentName := None;
      this.departmentAddress := None;
      this.departmentDetailAddress := None;
      this.departmentZipCode := None;
      this.departmentDepth := None;
      this.parentSeq := None;
      this.pathName := None;
    }

    method SetUsername(v: Option<string>)
      modifies this
      ensures Value() == old(Value()).(username := v)
    {
      username := v;
    }

    method SetFirstName(v: Option<string>)
      modifies this
      ensures Value() == old(Value()).(firstName := v)
    {
      firstName := v;
    }

    method SetLastName(v: Option<string>)
      modifies this
      ensures Value() == old(Value()).(lastName := v)
    {
      lastName := v;
    }

    method SetEmail(v: Option<string>)
      modifies this
      ensures Value() == old(Value()).(email := v)
    {
      email := v;
    }

    method SetRoles(v: Option<seq<string>>)
      modifies this
      ensures Value() == old(Value()).(roles := v)
    {
      roles := v;
    }

    method SetUserSeq(v: Option<string>)
      modifies this
      ensures Value() == old(Value()).(userSeq := v)
    {
      userSeq := v;
    }

    method SetEmployeeSeq(v: Option<string>)
      modifies this
      ensures Value() == old(Value()).(employeeSeq := v)
    {
      employeeSeq := v;
    }

    method SetBirthDay(v: Option<string>)
      modifies this
      ensures Value() == old(Value()).(birthDay := v)
    {
      birthDay := v;
    }

    method SetGender(v: Option<string>)
      modifies this
      ensures Value() == old(Value()).(gender := v)
    {
      gender := v;
    }

    method SetMobileTelephoneNumber(v: Option<string>)
      modifies this
      ensures Value() == old(Value()).(mobileTelephoneNumber := v)
    {
      mobileTelephoneNumber := v;
    }

    method SetInnerTelephoneNumber(v: Option<string>)
      modifies this
      ensures Value() == old(Value()).(innerTelephoneNumber := v)
    {
      innerTelephoneNumber := v;
    }

    method SetFaxTelephoneNumber(v: Option<string>)
      modifies this
      ensures Value() == old(Value()).(faxTelephoneNumber := v)
    {
      faxTelephoneNumber := v;
    }

    method SetPositionCode(v: Option<string>)
      modifies this
      ensures Value() == old(Value()).(positionCode := v)
    {
      positionCode := v;
    }

    method SetPositionName(v: Option<string>)
      modifies this
      ensures Value() == old(Value()).(positionName := v)
    {
      positionName := v;
    }

    method SetDutyCode(v: Option<string>)
      modifies this
      ensures Value() == old(Value()).(dutyCode := v)
    {
      dutyCode := v;
    }

    method SetDutyName(v: Option<string>)
      modifies this
      ensures Value() == old(Value()).(dutyName := v)
    {
      dutyName := v;
    }

    method SetMainWork(v: Option<string>)
      modifies this
      ensures Value() == old(Value()).(mainWork := v)
    {
      mainWork := v;
    }

    method SetPictureFileId(v: Option<string>)
      modifies this
      ensures Value() == old(Value()).(pictureFileId := v)
    {
      pictureFileId := v;
    }

    method SetGroupSeq(v: Option<string>)
      modifies this
      ensures Value() == old(Value()).(groupSeq := v)
    {
      groupSeq := v;
    }

    method SetBizSeq(v: Option<string>)
      modifies this
      ensures Value() == old(Value()).(bizSeq := v)
    {
      bizSeq := v;
    }

    method SetCompanySeq(v: Option<string>)
      modifies this
      ensures Value() == old(Value()).(companySeq := v)
    {
      companySeq := v;
    }

    method SetCompanyName(v: Option<string>)
      modifies this
      ensures Value() == old(Value()).(companyName := v)
    {
      companyName := v;
    }

    method SetDepartmentSeq(v: Option<string>)
      modifies this
      ensures Value() == old(Value()).(departmentSeq := v)
    {
      departmentSeq := v;
    }

    method SetDepartmentName(v: Option<string>)
      modifies this
      ensures Value() == old(Value()).(departmentName := v)
    {
      departmentName := v;
    }

    method SetDepartmentAddress(v: Option<string>)
      modifies this
      ensures Value() == old(Value()).(departmentAddress := v)
    {
      departmentAddress := v;
    }

    method SetDepartmentDetailAddress(v: Option<string>)
      modifies this
      ensures Value() == old(Value()).(departmentDetailAddress := v)
    {
      departmentDetailAddress := v;
    }

    method SetDepartmentZipCode(v: Option<string>)
      modifies this
      ensures Value() == old(Value()).(departmentZipCode := v)
    {
      departmentZipCode := v;
    }

    method SetDepartmentDepth(v: Option<Int32>)
      modifies this
      ensures Value() == old(Value()).(departmentDepth := v)
    {
      departmentDepth := v;
    }

    method SetParentSeq(v: Option<string>)
      modifies this
      ensures Value() == old(Value()).(parentSeq := v)
    {
      parentSeq := v;
    }

    method SetPathName(v: Option<string>)
      modifies this
      ensures Value() == old(Value()).(pathName := v)
    {
      pathName := v;
    }
  }
}
