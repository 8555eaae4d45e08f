/**
 * Lines 59-98 of `authenticate`: find the host record by the projected
 * username (creating it when absent), write the profile fields and the 24
 * single-valued attributes, enable the account, mark the email verified,
 * and grant each listed role.  The pure functions say what the record and
 * the directory become; the methods do it step by step on the host objects.
 *
 * A role name the realm does not know makes `getRole` return null, and the
 * model takes granting that null role to throw: the loop ends there, and the
 * writes already made stay.
 */
module Synchroniser {
  import opened Wrappers
  import opened Text
  import Dto
  import opened UserDto
  import opened Host

  /** The `deptDepth` attribute: the decimal string of the depth, or null. */
  function DepthAttribute(depth: Option<Dto.Int32>): Option<string> {
    if depth.None? then None else Some(IntToDecimal(depth.value))
  }

  /** The 24 `setSingleAttribute` calls, in the order the source makes them. */
  function WriteAttributes(attrs: map<string, Option<string>>, u: UserValue): map<string, Option<string>> {
    attrs
      ["userSeq" := u.userSeq]
      ["empSeq" := u.employeeSeq]
      ["birthDay" := u.birthDay]
      ["mobileTelNumber" := u.mobileTelephoneNumber]
      ["innerTelNumber" := u.innerTelephoneNumber]
      ["faxTelNumber" := u.faxTelephoneNumber]
      ["positionCode" := u.positionCode]
      ["positionName" := u.positionName]
      ["dutyCode" := u.dutyCode]
      ["dutyName" := u.dutyName]
      ["mainWork" := u.mainWork]
      ["picFileId" := u.pictureFileId]
      ["groupSeq" := u.groupSeq]
      ["bizSeq" := u.bizSeq]
      ["compSeq" := u.companySeq]
      ["compName" := u.companyName]
      ["deptSeq" := u.departmentSeq]
      ["deptName" := u.departmentName]
      ["deptAddr" := u.departmentAddress]
      ["deptDetailAddr" := u.departmentDetailAddress]
      ["deptZipCode" := u.departmentZipCode]
      ["deptDepth" := DepthAttribute(u.departmentDepth)]
      ["parentSeq" := u.parentSeq]
      ["pathName" := u.pathName]
  }

  /** The attribute table: the host attribute that holds each `User` field (`deptDepth` is rendered, see `DepthAttribute`). */
  function AttributeFor(f: UserField): Option<string> {
    match f
    case UserSeq => Some("userSeq")
    case EmployeeSeq => Some("empSeq")
    case BirthDay => Some("birthDay")
    case MobileTelephoneNumber => Some("mobileTelNumber")
    case InnerTelephoneNumber => Some("innerTelNumber")
    case FaxTelephoneNumber => Some("faxTelNumber")
    case PositionCode => Some("positionCode")
    case PositionName => Some("positionName")
    case DutyCode => Some("dutyCode")
    case DutyName => Some("dutyName")
    case MainWork => Some("mainWork")
    case PictureFileId => Some("picFileId")
    case GroupSeq => Some("groupSeq")
    case BizSeq => Some("bizSeq")
    case CompanySeq => Some("compSeq")
    case CompanyName => Some("compName")
    case DepartmentSeq => Some("deptSeq")
    case DepartmentName => Some("deptName")
    case DepartmentAddress => Some("deptAddr")
    case DepartmentDetailAddress => Some("deptDetailAddr")
    case DepartmentZipCode => Some("deptZipCode")
    case ParentSeq => Some("parentSeq")
    case PathName => Some("pathName")
    case _ => None
  }

  /** The attribute names in the order the source writes them. */
  const AttributeOrder: seq<string> := ["userSeq", "empSeq", "birthDay", "mobileTelNumber", "innerTelNumber", "faxTelNumber", "positionCode", "positionName", "dutyCode", "dutyName", "mainWork", "picFileId", "groupSeq", "bizSeq", "compSeq", "compName", "deptSeq", "deptName", "deptAddr", "deptDetailAddr", "deptZipCode", "deptDepth", "parentSeq", "pathName"]

  /** The attribute names the update writes. */
  const AttributeNames: set<string> := set n | n in AttributeOrder

  /** The profile writes of lines 66-94, everything but the roles. */
  function WriteProfile(r: RecordValue, u: UserValue): RecordValue {
    r.(firstName := u.firstName, lastName := u.lastName, email := u.email,
       attributes := WriteAttributes(r.attributes, u), enabled := true, emailVerified := true)
  }

  /**
   * The role loop: grant each role in turn; the first name the realm does
   * not know throws and ends the loop.  Yields the granted set and whether
   * it threw.
   */
  function Grant(granted: set<string>, roles: seq<string>, realm: Realm): (set<string>, bool)
    decreases |roles|
  {
    if roles == [] then (granted, false)
    else if realm.GetRole(roles[0]).None? then (granted, true)
    else Grant(granted + {roles[0]}, roles[1..], realm)
  }

  /** One record's update; the flag says whether the update threw part-way. */
  function SyncRecord(r: RecordValue, u: UserValue, realm: Realm): (RecordValue, bool) {
    var written := WriteProfile(r, u);
    match u.roles
    case None => (written, true)   // iterating a null role list throws
    case Some(rs) =>
      var (granted, thrown) := Grant(written.roles, rs, realm);
      (written.(roles := granted), thrown)
  }

  /** The record the step updates: the existing one, or a new one when the username is absent. */
  function RecordBefore(users: map<string, RecordValue>, name: string): RecordValue {
    if name in users then users[name] else NewRecord
  }

  /** The directory after the update, and whether it threw. */
  function SyncDirectory(users: map<string, RecordValue>, u: UserValue, realm: Realm): (map<string, RecordValue>, bool)
    requires u.username.Some?
  {
    var name := u.username.value;
    var (after, thrown) := SyncRecord(RecordBefore(users, name), u, realm);
    (users[name := after], thrown)
  }

  // -----------------------------------------------------------------------
  // Properties of the update
  // -----------------------------------------------------------------------

  /** Every role up to and including index `i` is known to the realm. */
  predicate KnownThrough(roles: seq<string>, i: int, realm: Realm) {
    forall j :: 0 <= j <= i && j < |roles| ==> roles[j] in realm.roleNames
  }

  /**
   * The role loop throws exactly when some listed role is unknown, and it
   * grants exactly the roles that come before the first unknown one.
   */
  lemma {:induction false} GrantOutcome(granted: set<string>, roles: seq<string>, realm: Realm)
    ensures Grant(granted, roles, realm).1 <==> exists i :: 0 <= i < |roles| && roles[i] !in realm.roleNames
    ensures forall r :: r in Grant(granted, roles, realm).0 <==>
              r in granted || exists i :: 0 <= i < |roles| && roles[i] == r && KnownThrough(roles, i, realm)
    decreases |roles|
  {
    if roles == [] {
    } else if roles[0] !in realm.roleNames {
      assert forall i :: 0 <= i < |roles| ==> !KnownThrough(roles, i, realm);
    } else {
      var rest := roles[1..];
      var g := granted + {roles[0]};
      GrantOutcome(g, rest, realm);
      assert Grant(granted, roles, realm) == Grant(g, rest, realm);
      forall i | 0 <= i < |rest| ensures KnownThrough(rest, i, realm) <==> KnownThrough(roles, i + 1, realm) {
        if KnownThrough(rest, i, realm) {
          forall j | 0 <= j <= i + 1 && j < |roles| ensures roles[j] in realm.roleNames {
            if j > 0 { assert roles[j] == rest[j - 1]; }
          }
        }
        if KnownThrough(roles, i + 1, realm) {
          forall j | 0 <= j <= i && j < |rest| ensures rest[j] in realm.roleNames {
            assert rest[j] == roles[j + 1];
          }
        }
      }
      if exists i :: 0 <= i < |roles| && roles[i] !in realm.roleNames {
        var i :| 0 <= i < |roles| && roles[i] !in realm.roleNames;
        assert rest[i - 1] !in realm.roleNames;
      }
      if exists i :: 0 <= i < |rest| && rest[i] !in realm.roleNames {
        var i :| 0 <= i < |rest| && rest[i] !in realm.roleNames;
        assert roles[i + 1] !in realm.roleNames;
      }
      forall r ensures r in Grant(granted, roles, realm).0 <==>
                       r in granted || exists i :: 0 <= i < |roles| && roles[i] == r && KnownThrough(roles, i, realm) {
        if r in Grant(granted, roles, realm).0 && r !in granted {
          if r == roles[0] {
            assert KnownThrough(roles, 0, realm);
          } else {
            var i :| 0 <= i < |rest| && rest[i] == r && KnownThrough(rest, i, realm);
            assert roles[i + 1] == r && KnownThrough(roles, i + 1, realm);
          }
        }
        if exists i :: 0 <= i < |roles| && roles[i] == r && KnownThrough(roles, i, realm) {
          var i :| 0 <= i < |roles| && roles[i] == r && KnownThrough(roles, i, realm);
          if i > 0 {
            assert rest[i - 1] == r && KnownThrough(rest, i - 1, realm);
          }
        }
      }
    }
  }

  /** When every listed role is known, the loop grants all of them and does not throw. */
  lemma GrantAllKnown(granted: set<string>, roles: seq<string>, realm: Realm)
    requires forall i :: 0 <= i < |roles| ==> roles[i] in realm.roleNames
    ensures Grant(granted, roles, realm) == (granted + set r | r in roles, false)
  {
    GrantOutcome(granted, roles, realm);
    forall r ensures r in Grant(granted, roles, realm).0 <==> r in granted + set r | r in roles {
      if r in roles {
        var i :| 0 <= i < |roles| && roles[i] == r;
        assert KnownThrough(roles, i, realm);
      }
    }
    assert Grant(granted, roles, realm).0 == granted + set r | r in roles;
  }

  /** Running the role loop a second time changes nothing. */
  lemma GrantIdempotent(granted: set<string>, roles: seq<string>, realm: Realm)
    ensures Grant(Grant(granted, roles, realm).0, roles, realm) == Grant(granted, roles, realm)
  {
    var once := Grant(granted, roles, realm);
    GrantOutcome(granted, roles, realm);
    GrantOutcome(once.0, roles, realm);
    assert Grant(once.0, roles, realm).0 == once.0;
  }

  /** Every tabled attribute name is written, and none of them is `deptDepth`. */
  lemma AttributeNamesAreTabled()
    ensures forall f :: AttributeFor(f).Some? ==> AttributeFor(f).value in AttributeNames && AttributeFor(f) != Some("deptDepth")
    ensures "deptDepth" in AttributeNames
  {
  }

  /** The `User` field each written attribute comes from, position by position; `deptDepth` is rendered from the depth. */
  const AttributeSources: seq<Option<UserField>> := [Some(UserSeq), Some(EmployeeSeq), Some(BirthDay), Some(MobileTelephoneNumber), Some(InnerTelephoneNumber), Some(FaxTelephoneNumber), Some(PositionCode), Some(PositionName), Some(DutyCode), Some(DutyName), Some(MainWork), Some(PictureFileId), Some(GroupSeq), Some(BizSeq), Some(CompanySeq), Some(CompanyName), Some(DepartmentSeq), Some(DepartmentName), Some(DepartmentAddress), Some(DepartmentDetailAddress), Some(DepartmentZipCode), None, Some(ParentSeq), Some(PathName)]

  /** Position by position, the table names the attribute written from each field. */
  lemma AttributeSourcesFollowTable()
    ensures |AttributeSources| == |AttributeOrder|
    ensures AttributeSources[21].None? && AttributeOrder[21] == "deptDepth"
    ensures forall i :: 0 <= i < |AttributeOrder| && i != 21 ==>
              AttributeSources[i].Some? && AttributeFor(AttributeSources[i].value) == Some(AttributeOrder[i])
  {
  }

  /** Every written attribute name other than `deptDepth` is the table's name of some field. */
  lemma AttributeNamesComeFromTable()
    ensures forall n :: n in AttributeNames && n != "deptDepth" ==> exists f :: AttributeFor(f) == Some(n)
  {
    AttributeSourcesFollowTable();
    forall n | n in AttributeNames && n != "deptDepth"
      ensures exists f :: AttributeFor(f) == Some(n)
    {
      var i :| 0 <= i < |AttributeOrder| && AttributeOrder[i] == n;
      assert AttributeFor(AttributeSources[i].value) == Some(n);
    }
  }

  /** The sequence has no repeated element. */
  predicate Distinct(s: seq<string>) {
    forall i, j :: 0 <= i < j < |s| ==> s[i] != s[j]
  }

  /** A sequence without repeats has as many elements as its set. */
  lemma {:induction false} DistinctCount(s: seq<string>)
    requires Distinct(s)
    ensures |set x | x in s| == |s|
  {
    if s != [] {
      DistinctCount(s[1..]);
      assert (set x | x in s) == (set x | x in s[1..]) + {s[0]};
      assert s[0] !in s[1..];
    }
  }

  /** The first twelve attribute names differ from one another and from every later one. */
  lemma AttributeOrderDistinctFront()
    ensures forall i, j :: 0 <= i < 12 && i < j < |AttributeOrder| ==> AttributeOrder[i] != AttributeOrder[j]
  {
  }

  /** The last twelve attribute names differ from one another. */
  lemma AttributeOrderDistinctBack()
    ensures forall i, j :: 12 <= i < j < |AttributeOrder| ==> AttributeOrder[i] != AttributeOrder[j]
  {
  }

  /** No attribute is written twice. */
  lemma AttributeOrderDistinct()
    ensures Distinct(AttributeOrder)
  {
    AttributeOrderDistinctFront();
    AttributeOrderDistinctBack();
  }

  /** The writes use 24 distinct attribute names. */
  lemma AttributeNamesCount()
    ensures |AttributeNames| == 24
  {
    AttributeOrderDistinct();
    DistinctCount(AttributeOrder);
  }

  /** The writes add exactly the 24 attribute names. */
  lemma WriteAttributesKeys(attrs: map<string, Option<string>>, u: UserValue)
    ensures WriteAttributes(attrs, u).Keys == attrs.Keys + AttributeNames
  {
  }

  /** Every tabled attribute holds the `User` field the table names. */
  lemma WriteAttributesFollowsTable(attrs: map<string, Option<string>>, u: UserValue)
    ensures forall f :: AttributeFor(f).Some? ==>
              && AttributeFor(f).value in WriteAttributes(attrs, u)
              && WriteAttributes(attrs, u)[AttributeFor(f).value] == FieldText(u, f)
  {
  }

  /** `deptDepth` holds the decimal rendering of the depth, or null. */
  lemma WriteAttributesRendersDepth(attrs: map<string, Option<string>>, u: UserValue)
    ensures WriteAttributes(attrs, u)["deptDepth"] == DepthAttribute(u.departmentDepth)
    ensures u.departmentDepth.Some? ==> ParseInt(WriteAttributes(attrs, u)["deptDepth"].value) == u.departmentDepth.value
  {
    if u.departmentDepth.Some? {
      IntToDecimalRoundTrip(u.departmentDepth.value);
    }
  }

  /** Attributes outside the table keep their values. */
  lemma WriteAttributesKeepsOthers(attrs: map<string, Option<string>>, u: UserValue)
    ensures forall name :: name in attrs && name !in AttributeNames ==> WriteAttributes(attrs, u)[name] == attrs[name]
  {
  }

  /** Writing the same attributes twice is writing them once. */
  lemma WriteAttributesIdempotent(attrs: map<string, Option<string>>, u: UserValue)
    ensures WriteAttributes(WriteAttributes(attrs, u), u) == WriteAttributes(attrs, u)
  {
  }

  /**
   * After the update the record holds the user's names and email and the
   * written attributes, is enabled with its email verified, and has gained
   * the granted roles; it throws exactly when the role list is null or
   * names a role the realm lacks, and otherwise every listed role is granted.
   */
  lemma SyncedRecord(r: RecordValue, u: UserValue, realm: Realm)
    ensures var (after, thrown) := SyncRecord(r, u, realm);
      && after.firstName == u.firstName && after.lastName == u.lastName && after.email == u.email
      && after.attributes == WriteAttributes(r.attributes, u)
      && after.enabled && after.emailVerified
      && r.roles <= after.roles
      && (thrown <==> u.roles.None? || exists i :: 0 <= i < |u.roles.value| && u.roles.value[i] !in realm.roleNames)
      && (!thrown ==> u.roles.Some? && after.roles == r.roles + set x | x in u.roles.value)
  {
    if u.roles.Some? {
      var rs := u.roles.value;
      GrantOutcome(r.roles, rs, realm);
      if forall i :: 0 <= i < |rs| ==> rs[i] in realm.roleNames {
        GrantAllKnown(r.roles, rs, realm);
      }
    }
  }

  /** Updating a record twice with the same user leaves it as one update does. */
  lemma SyncRecordIdempotent(r: RecordValue, u: UserValue, realm: Realm)
    ensures SyncRecord(SyncRecord(r, u, realm).0, u, realm) == SyncRecord(r, u, realm)
  {
    WriteAttributesIdempotent(r.attributes, u);
    if u.roles.Some? {
      GrantIdempotent(r.roles, u.roles.value, realm);
    }
  }

  /**
   * The update creates a record only for an absent username, so the
   * directory never holds two records for one username, and it leaves
   * every other user's record as it was.
   */
  lemma SyncDirectoryTouchesOneUser(users: map<string, RecordValue>, u: UserValue, realm: Realm)
    requires u.username.Some?
    ensures SyncDirectory(users, u, realm).0.Keys == users.Keys + {u.username.value}
    ensures u.username.value in users ==> |SyncDirectory(users, u, realm).0| == |users|
    ensures u.username.value !in users ==> |SyncDirectory(users, u, realm).0| == |users| + 1
    ensures forall k :: k in users && k != u.username.value ==> SyncDirectory(users, u, realm).0[k] == users[k]
  {
  }

  /** Applying the same user twice gives the directory one application gives. */
  lemma SyncDirectoryIdempotent(users: map<string, RecordValue>, u: UserValue, realm: Realm)
    requires u.username.Some?
    ensures SyncDirectory(SyncDirectory(users, u, realm).0, u, realm) == SyncDirectory(users, u, realm)
  {
    var name := u.username.value;
    var synced := SyncRecord(RecordBefore(users, name), u, realm);
    var once := users[name := synced.0];
    assert RecordBefore(once, name) == synced.0;
    SyncRecordIdempotent(RecordBefore(users, name), u, realm);
    assert SyncRecord(RecordBefore(once, name), u, realm) == synced;
    assert once[name := synced.0] == once;
  }

  // -----------------------------------------------------------------------
  // The host-side steps
  // -----------------------------------------------------------------------

  /** Lines 61-65: look the record up by username and create it when absent. */
  method LookupOrCreate(dir: Directory, name: string) returns (record: UserModel)
    requires dir.Valid()
    modifies dir
    ensures dir.Valid()
    ensures name in dir.users && record == dir.users[name]
    ensures name in old(dir.users) ==> dir.users == old(dir.users)
    ensures name !in old(dir.users) ==> fresh(record) && dir.users == old(dir.users)[name := record]
    ensures dir.View() == old(dir.View())[name := RecordBefore(old(dir.View()), name)]
  {
    var userModel := dir.GetUserByUsername(name);
    if userModel == null {
      userModel := dir.AddUser(name);
    }
    record := userModel;
    assert forall k :: k in dir.users && k != name ==> k in old(dir.users) && dir.users[k] == old(dir.users[k]);
  }

  /** Lines 66-94: the profile fields, the attributes, enabled and email-verified. */
  method WriteRecord(record: UserModel, user: User)
    modifies record
    ensures record.Value() == WriteProfile(old(record.Value()), user.Value())
  {
    record.SetFirstName(user.firstName);
    record.SetLastName(user.lastName);
    record.SetEmail(user.email);
    record.SetSingleAttribute("userSeq", user.userSeq);
    record.SetSingleAttribute("empSeq", user.employeeSeq);
    record.SetSingleAttribute("birthDay", user.birthDay);
    record.SetSingleAttribute("mobileTelNumber", user.mobileTelephoneNumber);
    record.SetSingleAttribute("innerTelNumber", user.innerTelephoneNumber);
    record.SetSingleAttribute("faxTelNumber", user.faxTelephoneNumber);
    record.SetSingleAttribute("positionCode", user.positionCode);
    record.SetSingleAttribute("positionName", user.positionName);
    record.SetSingleAttribute("dutyCode", user.dutyCode);
    record.SetSingleAttribute("dutyName", user.dutyName);
    record.SetSingleAttribute("mainWork", user.mainWork);
    record.SetSingleAttribute("picFileId", user.pictureFileId);
    record.SetSingleAttribute("groupSeq", user.groupSeq);
    record.SetSingleAttribute("bizSeq", user.bizSeq);
    record.SetSingleAttribute("compSeq", user.companySeq);
    record.SetSingleAttribute("compName", user.companyName);
    record.SetSingleAttribute("deptSeq", user.departmentSeq);
    record.SetSingleAttribute("deptName", user.departmentName);
    record.SetSingleAttribute("deptAddr", user.departmentAddress);
    record.SetSingleAttribute("deptDetailAddr", user.departmentDetailAddress);
    record.SetSingleAttribute("deptZipCode", user.departmentZipCode);
    record.SetSingleAttribute("deptDepth", DepthAttribute(user.departmentDepth));
    record.SetSingleAttribute("parentSeq", user.parentSeq);
    record.SetSingleAttribute("pathName", user.pathName);
    record.SetEnabled(true);
    record.SetEmailVerified(true);
  }

  /** Lines 95-97: `for (String role : roles) grantRole(realm.getRole(role))`. */
  method GrantRoles(record: UserModel, roles: seq<string>, realm: Realm) returns (thrown: bool)
    modifies record
    ensures (record.roles, thrown) == Grant(old(record.roles), roles, realm)
    ensures record.Value() == old(record.Value()).(roles := record.roles)
  {
    var i := 0;
    while i < |roles|
      invariant 0 <= i <= |roles|
      invariant record.Value() == old(record.Value()).(roles := record.roles)
      invariant Grant(old(record.roles), roles, realm) == Grant(record.roles, roles[i..], realm)
    {
      thrown := record.GrantRole(realm.GetRole(roles[i]));
      if thrown {
        return;
      }
      assert roles[i..][1..] == roles[i + 1..];
      i := i + 1;
    }
    thrown := false;
  }

  /** `SyncDirectory` in terms of the one record it updates. */
  lemma SyncDirectoryUpdatesOneRecord(users: map<string, RecordValue>, u: UserValue, realm: Realm,
                                      after: RecordValue, thrown: bool)
    requires u.username.Some?
    requires (after, thrown) == SyncRecord(RecordBefore(users, u.username.value), u, realm)
    ensures SyncDirectory(users, u, realm) == (users[u.username.value := after], thrown)
  {
  }

  /** Lines 66-97: the writes and the role loop on one record. */
  method UpdateRecord(record: UserModel, user: User, realm: Realm) returns (thrown: bool)
    modifies record
    ensures (record.Value(), thrown) == SyncRecord(old(record.Value()), user.Value(), realm)
  {
    WriteRecord(record, user);
    if user.roles.None? {
      thrown := true;
    } else {
      thrown := GrantRoles(record, user.roles.value, realm);
    }
  }

  /** `UpdateRecord` on a record of the directory: the directory changes at that record only. */
  method UpdateListedRecord(dir: Directory, record: UserModel, user: User, realm: Realm) returns (thrown: bool)
    requires dir.Valid() && record.username in dir.users && dir.users[record.username] == record
    modifies record
    ensures dir.View() == old(dir.View())[record.username := record.Value()]
    ensures (record.Value(), thrown) == SyncRecord(old(record.Value()), user.Value(), realm)
  {
    thrown := UpdateRecord(record, user, realm);
    assert forall k :: k in dir.users && k != record.username ==> dir.users[k].Value() == old(dir.users[k].Value());
  }

  /** Lines 61-97 together. */
  method SyncUser(dir: Directory, user: User, realm: Realm) returns (record: UserModel, thrown: bool)
    requires dir.Valid() && user.username.Some?
    modifies dir, dir.users.Values
    ensures dir.Valid()
    ensures user.username.value in dir.users && record == dir.users[user.username.value]
    ensures (dir.View(), thrown) == SyncDirectory(old(dir.View()), user.Value(), realm)
  {
    ghost var start := dir.View();
    var name := user.username.value;
    record := LookupOrCreate(dir, name);
    assert record.Value() == dir.View()[name] == RecordBefore(start, name);
    thrown := UpdateListedRecord(dir, record, user, realm);
    assert dir.View() == start[name := record.Value()];
    SyncDirectoryUpdatesOneRecord(start, user.Value(), realm, record.Value(), thrown);
  }
}
