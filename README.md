# Ezcaretech login step for Keycloak, modelled in Dafny

The Ezcaretech authenticator is a Keycloak authentication step. It reads
the username and password from the login form and asks the Ezcaretech
(Bizbox) backend for a token and then for a member profile list. It picks
the first member whose login id equals the username, ignoring case, and
copies that member into a `User` record. It then creates or updates the
Keycloak user of that name: names, email, 24 single-valued attributes,
enabled, email verified, and the role `default-roles-ezcaretech`. Finally it
reports the outcome to the authentication flow.

The model has these modules:

- `Wrappers`: `Option`, standing for Java's nullable references.
- `Text`: `String.equalsIgnoreCase` on ASCII text, and `Integer.toString`
  with its parsing inverse.
- `Dto`: the backend payload. It covers the member (`UserMemberDTO`), its
  `PersonName` and the response (`UserResponseDTO`), with only the
  accessors the step uses. `Int32` is Java's `int` range; `Integer` is
  `Option<Int32>`.
- `UserDto`: the `User` record as a class with its 30 fields, its two
  constructors and its setters. Its snapshot `Value()` is a `UserValue`.
  Getters are plain field reads. `departmentDepth` is the only field of
  integer type; every other scalar field is a nullable string.
- `Backend`: the external API as a stub with fixed answers. Each call
  returns a value or throws `IOException`, and appends to a request log.
- `Host`: the parts of Keycloak the step talks to. A `UserModel` is a
  mutable record. The `Directory` maps usernames to records. The `Realm` is
  a table of role names. The `FlowContext` records the sequence of
  `failure`, `setUser` and `success` calls.
- `Projector`: `callExternalApi`, meaning member selection and projection.
  The pure function `Project` specifies it, and the method
  `CallExternalApi` builds the `User` through the constructor and setters,
  as the source does.
- `Synchroniser`: the create-or-update of lines 59-98. `SyncRecord` and
  `SyncDirectory` are value-level specifications. The methods
  `LookupOrCreate`, `WriteRecord`, `GrantRoles` and `SyncUser` perform the
  update on the objects and are proved against those specifications.
- `Authenticator`: `authenticate`, `requiresUser` and `configuredFor`.
  `Step` is the value-level outcome of one attempt. `Authenticate` is
  proved to produce exactly that outcome.

The outcome follows the code as written:

- An `IOException` records `INTERNAL_ERROR`. Because the user stays null,
  the step then also records `INVALID_USER` with the 401 response.
- An exception during synchronisation records `INTERNAL_ERROR`, and
  `success()` is still called afterwards.
- The role `default-roles-ezcaretech` is passed to `getRole`. If the realm
  has no such role, `getRole` returns null and `grantRole(null)` is called.
  The model treats that call as throwing. The catch block then records
  `INTERNAL_ERROR` while keeping the writes made before it, and `success()`
  follows. An unknown role is therefore not skipped: the code passes the
  null on, and the model follows the code.

## Model

| member | source | states |
|---|---|---|
| UserDto.User.Empty | src/main/java/dev/windfury/keycloak/bizbox/dto/User.java:72-73 | every one of the 30 fields is null afterwards |
| UserDto.User.constructor | src/main/java/dev/windfury/keycloak/bizbox/dto/User.java:75-88 | username, firstName, lastName, email and roles are exactly the arguments (the role list stored as given); all 25 other fields, gender included, stay null |
| UserDto.User.SetUsername | src/main/java/dev/windfury/keycloak/bizbox/dto/User.java:12 | `username` holds the value set and every other field is unchanged, so the getter (a field read) returns it |
| UserDto.User.SetFirstName | src/main/java/dev/windfury/keycloak/bizbox/dto/User.java:14 | `firstName` holds the value set and every other field is unchanged, so the getter (a field read) returns it |
| UserDto.User.SetLastName | src/main/java/dev/windfury/keycloak/bizbox/dto/User.java:16 | `lastName` holds the value set and every other field is unchanged, so the getter (a field read) returns it |
| UserDto.User.SetEmail | src/main/java/dev/windfury/keycloak/bizbox/dto/User.java:18 | `email` holds the value set and every other field is unchanged, so the getter (a field read) returns it |
| UserDto.User.SetRoles | src/main/java/dev/windfury/keycloak/bizbox/dto/User.java:20 | `roles` holds the value set and every other field is unchanged, so the getter (a field read) returns it |
| UserDto.User.SetUserSeq | src/main/java/dev/windfury/keycloak/bizbox/dto/User.java:22 | `userSeq` holds the value set and every other field is unchanged, so the getter (a field read) returns it |
| UserDto.User.SetEmployeeSeq | src/main/java/dev/windfury/keycloak/bizbox/dto/User.java:24 | `employeeSeq` holds the value set and every other field is unchanged, so the getter (a field read) returns it |
| UserDto.User.SetBirthDay | src/main/java/dev/windfury/keycloak/bizbox/dto/User.java:26 | `birthDay` holds the value set and every other field is unchanged, so the getter (a field read) returns it |
| UserDto.User.SetGender | src/main/java/dev/windfury/keycloak/bizbox/dto/User.java:28 | `gender` holds the value set and every other field is unchanged, so the getter (a field read) returns it |
| UserDto.User.SetMobileTelephoneNumber | src/main/java/dev/windfury/keycloak/bizbox/dto/User.java:30 | `mobileTelephoneNumber` holds the value set and every other field is unchanged, so the getter (a field read) returns it |
| UserDto.User.SetInnerTelephoneNumber | src/main/java/dev/windfury/keycloak/bizbox/dto/User.java:32 | `innerTelephoneNumber` holds the value set and every other field is unchanged, so the getter (a field read) returns it |
| UserDto.User.SetFaxTelephoneNumber | src/main/java/dev/windfury/keycloak/bizbox/dto/User.java:34 | `faxTelephoneNumber` holds the value set and every other field is unchanged, so the getter (a field read) returns it |
| UserDto.User.SetPositionCode | src/main/java/dev/windfury/keycloak/bizbox/dto/User.java:36 | `positionCode` holds the value set and every other field is unchanged, so the getter (a field read) returns it |
| UserDto.User.SetPositionName | src/main/java/dev/windfury/keycloak/bizbox/dto/User.java:38 | `positionName` holds the value set and every other field is unchanged, so the getter (a field read) returns it |
| UserDto.User.SetDutyCode | src/main/java/dev/windfury/keycloak/bizbox/dto/User.java:40 | `dutyCode` holds the value set and every other field is unchanged, so the getter (a field read) returns it |
| UserDto.User.SetDutyName | src/main/java/dev/windfury/keycloak/bizbox/dto/User.java:42 | `dutyName` holds the value set and every other field is unchanged, so the getter (a field read) returns it |
| UserDto.User.SetMainWork | src/main/java/dev/windfury/keycloak/bizbox/dto/User.java:44 | `mainWork` holds the value set and every other field is unchanged, so the getter (a field read) returns it |
| UserDto.User.SetPictureFileId | src/main/java/dev/windfury/keycloak/bizbox/dto/User.java:46 | `pictureFileId` holds the value set and every other field is unchanged, so the getter (a field read) returns it |
| UserDto.User.SetGroupSeq | src/main/java/dev/windfury/keycloak/bizbox/dto/User.java:48 | `groupSeq` holds the value set and every other field is unchanged, so the getter (a field read) returns it |
| UserDto.User.SetBizSeq | src/main/java/dev/windfury/keycloak/bizbox/dto/User.java:50 | `bizSeq` holds the value set and every other field is unchanged, so the getter (a field read) returns it |
| UserDto.User.SetCompanySeq | src/main/java/dev/windfury/keycloak/bizbox/dto/User.java:52 | `companySeq` holds the value set and every other field is unchanged, so the getter (a field read) returns it |
| UserDto.User.SetCompanyName | src/main/java/dev/windfury/keycloak/bizbox/dto/User.java:54 | `companyName` holds the value set and every other field is unchanged, so the getter (a field read) returns it |
| UserDto.User.SetDepartmentSeq | src/main/java/dev/windfury/keycloak/bizbox/dto/User.java:56 | `departmentSeq` holds the value set and every other field is unchanged, so the getter (a field read) returns it |
| UserDto.User.SetDepartmentName | src/main/java/dev/windfury/keycloak/bizbox/dto/User.java:58 | `departmentName` holds the value set and every other field is unchanged, so the getter (a field read) returns it |
| UserDto.User.SetDepartmentAddress | src/main/java/dev/windfury/keycloak/bizbox/dto/User.java:60 | `departmentAddress` holds the value set and every other field is unchanged, so the getter (a field read) returns it |
| UserDto.User.SetDepartmentDetailAddress | src/main/java/dev/windfury/keycloak/bizbox/dto/User.java:62 | `departmentDetailAddress` holds the value set and every other field is unchanged, so the getter (a field read) returns it |
| UserDto.User.SetDepartmentZipCode | src/main/java/dev/windfury/keycloak/bizbox/dto/User.java:64 | `departmentZipCode` holds the value set and every other field is unchanged, so the getter (a field read) returns it |
| UserDto.User.SetDepartmentDepth | src/main/java/dev/windfury/keycloak/bizbox/dto/User.java:66 | `departmentDepth` holds the value set and every other field is unchanged, so the getter (a field read) returns it |
| UserDto.User.SetParentSeq | src/main/java/dev/windfury/keycloak/bizbox/dto/User.java:68 | `parentSeq` holds the value set and every other field is unchanged, so the getter (a field read) returns it |
| UserDto.User.SetPathName | src/main/java/dev/windfury/keycloak/bizbox/dto/User.java:70 | `pathName` holds the value set and every other field is unchanged, so the getter (a field read) returns it |
| Backend.ExternalApi.constructor | src/main/java/dev/windfury/keycloak/ez/EzcaretechAuthenticator.java:124 | the stub answers with the given token and profile replies and has taken no request yet |
| Backend.ExternalApi.GetToken | src/main/java/dev/windfury/keycloak/ez/EzcaretechAuthenticator.java:125 | answers with the token reply (a token, null, or an IOException) and logs one token request with the credentials |
| Backend.ExternalApi.GetProfile | src/main/java/dev/windfury/keycloak/ez/EzcaretechAuthenticator.java:129 | answers with the profile reply and logs one profile request with the token |
| Projector.FirstMatch | src/main/java/dev/windfury/keycloak/ez/EzcaretechAuthenticator.java:139-143 | the index found holds a member whose login id equals the username ignoring ASCII case, no earlier member does; no index exactly when no member matches |
| Projector.Project | src/main/java/dev/windfury/keycloak/ez/EzcaretechAuthenticator.java:123-184 | a projected user's username is non-null and equals the form username ignoring case, and its roles are exactly ["default-roles-ezcaretech"] |
| Projector.CallExternalApi | src/main/java/dev/windfury/keycloak/ez/EzcaretechAuthenticator.java:123-184 | logs the token request, and the profile request only when a token came back; throws exactly on an IOException; returns a new User exactly when a member matched, holding the projection of the first matching member |
| Projector.ProjectionFollowsRenameTable | src/main/java/dev/windfury/keycloak/ez/EzcaretechAuthenticator.java:159-182 | every string field of the User is the member field the rename table names (userSeq from seq, innerTelephoneNumber from telephoneNumber, faxTelephoneNumber from faxNumber, positionName from positionCodeName, dutyName from dutyCodeName, the rest by the same name, gender never set); departmentDepth is depth |
| Projector.ThrowsOnlyOnIOFailure | src/main/java/dev/windfury/keycloak/ez/EzcaretechAuthenticator.java:125-129 | the projection throws exactly when the token call throws, or a token came back and the profile call throws |
| Projector.MissingInputGivesNoUser | src/main/java/dev/windfury/keycloak/ez/EzcaretechAuthenticator.java:125-138 | a null token, a null profile response or a null member list give no user and no exception |
| Projector.ProjectsFirstMatchingMember | src/main/java/dev/windfury/keycloak/ez/EzcaretechAuthenticator.java:139-147 | a user is projected exactly when a token, a response and a list came back and some member matches, and it is the projection of the first matching member |
| Projector.ProjectedUsernameIsLoginId | src/main/java/dev/windfury/keycloak/ez/EzcaretechAuthenticator.java:151-157 | the projected username is the login id, in the backend's casing, of a listed member that matches the form username |
| Projector.FirstMatchIgnoresCase | src/main/java/dev/windfury/keycloak/ez/EzcaretechAuthenticator.java:141 | usernames that are equal ignoring case select the same member |
| Projector.ProjectIgnoresCase | src/main/java/dev/windfury/keycloak/ez/EzcaretechAuthenticator.java:141 | usernames that are equal ignoring case give the same projection |
| Text.EqualsIgnoreCaseIffSameUpper | src/main/java/dev/windfury/keycloak/ez/EzcaretechAuthenticator.java:141 | two strings are equal ignoring case exactly when their ASCII upper-casings are equal |
| Text.EqualsIgnoreCaseSymmetric | src/main/java/dev/windfury/keycloak/ez/EzcaretechAuthenticator.java:141 | the case-insensitive comparison is symmetric |
| Text.EqualsIgnoreCaseTransitive | src/main/java/dev/windfury/keycloak/ez/EzcaretechAuthenticator.java:141 | the case-insensitive comparison is transitive |
| Text.IntToDecimalRoundTrip | src/main/java/dev/windfury/keycloak/ez/EzcaretechAuthenticator.java:90 | the decimal rendering of an integer is canonical (no leading zero, no minus zero) and parses back to the same integer |
| Host.UserModel.constructor | src/main/java/dev/windfury/keycloak/ez/EzcaretechAuthenticator.java:64 | a new record has the given username, no names, email or attributes, is disabled and unverified, and holds no role |
| Host.UserModel.SetFirstName | src/main/java/dev/windfury/keycloak/ez/EzcaretechAuthenticator.java:66 | the record's first name is the value given |
| Host.UserModel.SetLastName | src/main/java/dev/windfury/keycloak/ez/EzcaretechAuthenticator.java:67 | the record's last name is the value given |
| Host.UserModel.SetEmail | src/main/java/dev/windfury/keycloak/ez/EzcaretechAuthenticator.java:68 | the record's email is the value given |
| Host.UserModel.SetSingleAttribute | src/main/java/dev/windfury/keycloak/ez/EzcaretechAuthenticator.java:69-92 | the named attribute holds the value given (null included) and every other attribute is unchanged |
| Host.UserModel.SetEnabled | src/main/java/dev/windfury/keycloak/ez/EzcaretechAuthenticator.java:93 | the enabled flag is the value given |
| Host.UserModel.SetEmailVerified | src/main/java/dev/windfury/keycloak/ez/EzcaretechAuthenticator.java:94 | the email-verified flag is the value given |
| Host.UserModel.GrantRole | src/main/java/dev/windfury/keycloak/ez/EzcaretechAuthenticator.java:96 | throws exactly when given a null role (what `getRole` returns for a name the realm lacks), and otherwise adds that role to the record's roles |
| Host.Directory.GetUserByUsername | src/main/java/dev/windfury/keycloak/ez/EzcaretechAuthenticator.java:61 | returns the record stored under the username, or null when there is none |
| Host.Directory.constructor | src/main/java/dev/windfury/keycloak/ez/EzcaretechAuthenticator.java:61 | the directory starts empty and well formed, every record under its own username |
| Host.Directory.AddUser | src/main/java/dev/windfury/keycloak/ez/EzcaretechAuthenticator.java:64 | adds a new empty record under an absent username and changes no other entry |
| Host.FlowContext.constructor | src/main/java/dev/windfury/keycloak/ez/EzcaretechAuthenticator.java:52 | the flow starts with no call recorded |
| Host.FlowContext.Failure | src/main/java/dev/windfury/keycloak/ez/EzcaretechAuthenticator.java:56 | records one failure with the given error and no response |
| Host.FlowContext.FailureWithResponse | src/main/java/dev/windfury/keycloak/ez/EzcaretechAuthenticator.java:108-110 | records one failure with the given error and response |
| Host.FlowContext.SetUser | src/main/java/dev/windfury/keycloak/ez/EzcaretechAuthenticator.java:99 | records that the flow's user was set to the given record |
| Host.FlowContext.Success | src/main/java/dev/windfury/keycloak/ez/EzcaretechAuthenticator.java:105 | records one success |
| Synchroniser.GrantOutcome | src/main/java/dev/windfury/keycloak/ez/EzcaretechAuthenticator.java:95-97 | the role loop throws exactly when some listed role is unknown to the realm, and grants exactly the roles before the first unknown one |
| Synchroniser.GrantAllKnown | src/main/java/dev/windfury/keycloak/ez/EzcaretechAuthenticator.java:95-97 | when every listed role is known, the loop does not throw and adds exactly the listed roles |
| Synchroniser.GrantIdempotent | src/main/java/dev/windfury/keycloak/ez/EzcaretechAuthenticator.java:95-97 | running the role loop again on its own result changes nothing and throws the same way |
| Synchroniser.AttributeNamesAreTabled | src/main/java/dev/windfury/keycloak/ez/EzcaretechAuthenticator.java:69-92 | every attribute name the table gives a User field is written, and none of them is deptDepth, which is written too |
| Synchroniser.AttributeNamesComeFromTable | src/main/java/dev/windfury/keycloak/ez/EzcaretechAuthenticator.java:69-92 | every written attribute name other than deptDepth is the table's name for some User field |
| Synchroniser.AttributeNamesCount | src/main/java/dev/windfury/keycloak/ez/EzcaretechAuthenticator.java:69-92 | the writes use 24 attribute names, none written twice |
| Synchroniser.AttributeSourcesFollowTable | src/main/java/dev/windfury/keycloak/ez/EzcaretechAuthenticator.java:69-92 | position by position in the source's write order, each attribute except deptDepth is the table's name for the field written into it |
| Synchroniser.WriteAttributesKeys | src/main/java/dev/windfury/keycloak/ez/EzcaretechAuthenticator.java:69-92 | the attribute map afterwards has the earlier keys plus the 24 written names |
| Synchroniser.WriteAttributesFollowsTable | src/main/java/dev/windfury/keycloak/ez/EzcaretechAuthenticator.java:69-92 | each written attribute holds exactly the User field the table maps to it |
| Synchroniser.WriteAttributesRendersDepth | src/main/java/dev/windfury/keycloak/ez/EzcaretechAuthenticator.java:90 | deptDepth is null when departmentDepth is null and otherwise its decimal rendering, which parses back to departmentDepth |
| Synchroniser.WriteAttributesKeepsOthers | src/main/java/dev/windfury/keycloak/ez/EzcaretechAuthenticator.java:69-92 | attributes outside the 24 names are left as they were |
| Synchroniser.WriteAttributesIdempotent | src/main/java/dev/windfury/keycloak/ez/EzcaretechAuthenticator.java:69-92 | writing the attributes twice gives what writing them once gives |
| Synchroniser.SyncedRecord | src/main/java/dev/windfury/keycloak/ez/EzcaretechAuthenticator.java:66-97 | after the update the names and email are the User's, the attributes are the written ones, enabled and email-verified are true and no role is lost; it throws exactly when the role list is null or names an unknown role, and otherwise every listed role is granted |
| Synchroniser.SyncRecordIdempotent | src/main/java/dev/windfury/keycloak/ez/EzcaretechAuthenticator.java:66-97 | updating a record a second time with the same User changes nothing and throws the same way |
| Synchroniser.SyncDirectoryTouchesOneUser | src/main/java/dev/windfury/keycloak/ez/EzcaretechAuthenticator.java:61-65 | the directory gains at most the User's username as new key, never a second record for an existing one, and every other user's record is unchanged |
| Synchroniser.SyncDirectoryIdempotent | src/main/java/dev/windfury/keycloak/ez/EzcaretechAuthenticator.java:59-97 | applying the same User twice gives the directory and the outcome applying it once gives |
| Synchroniser.LookupOrCreate | src/main/java/dev/windfury/keycloak/ez/EzcaretechAuthenticator.java:61-65 | returns the record stored under the username, creating an empty one only when none exists; existing records are kept |
| Synchroniser.WriteRecord | src/main/java/dev/windfury/keycloak/ez/EzcaretechAuthenticator.java:66-94 | the record afterwards holds the User's names and email, the 24 attributes and enabled and email-verified set |
| Synchroniser.GrantRoles | src/main/java/dev/windfury/keycloak/ez/EzcaretechAuthenticator.java:95-97 | the loop changes only the role set; its effect and whether it throws are those of the role loop specification |
| Synchroniser.UpdateRecord | src/main/java/dev/windfury/keycloak/ez/EzcaretechAuthenticator.java:66-97 | the record and the thrown flag afterwards are those the record update specification gives |
| Synchroniser.UpdateListedRecord | src/main/java/dev/windfury/keycloak/ez/EzcaretechAuthenticator.java:66-97 | the directory view changes only at the updated record's username |
| Synchroniser.SyncUser | src/main/java/dev/windfury/keycloak/ez/EzcaretechAuthenticator.java:59-98 | the directory afterwards, and whether an exception escaped, are those the directory update specification gives; the record returned is the one stored under the username |
| Authenticator.Step | src/main/java/dev/windfury/keycloak/ez/EzcaretechAuthenticator.java:44-112 | a login attempt makes one or two calls on the flow and ends in success or in the invalid-user failure |
| Authenticator.SyncAndSucceed | src/main/java/dev/windfury/keycloak/ez/EzcaretechAuthenticator.java:59-105 | synchronises the directory, then records an internal error when that threw and the setting of the user otherwise, and always success |
| Authenticator.Authenticate | src/main/java/dev/windfury/keycloak/ez/EzcaretechAuthenticator.java:44-112 | the backend requests, the directory afterwards and the calls recorded on the flow are those the step specification gives |
| Authenticator.RequiresUser | src/main/java/dev/windfury/keycloak/ez/EzcaretechAuthenticator.java:192-194 | the step never requires a user |
| Authenticator.ConfiguredFor | src/main/java/dev/windfury/keycloak/ez/EzcaretechAuthenticator.java:197-199 | the step is configured for every realm and user |
| Authenticator.SucceedsExactlyWhenProjected | src/main/java/dev/windfury/keycloak/ez/EzcaretechAuthenticator.java:59-111 | success is recorded exactly when the backend yielded a user, and the 401 failure exactly when it did not |
| Authenticator.RejectionLeavesDirectory | src/main/java/dev/windfury/keycloak/ez/EzcaretechAuthenticator.java:106-111 | without a user the directory is unchanged, the last call is the invalid-user failure with the 401 response, and neither success nor a user is recorded |
| Authenticator.IOFailureReportedTwice | src/main/java/dev/windfury/keycloak/ez/EzcaretechAuthenticator.java:52-57 | an IOException records an internal error and then the invalid-user failure with the 401 response, leaving the directory unchanged |
| Authenticator.NoTokenRejected | src/main/java/dev/windfury/keycloak/ez/EzcaretechAuthenticator.java:125-128 | a null token gives exactly the invalid-user failure with the 401 response |
| Authenticator.SyncFaultStillSucceeds | src/main/java/dev/windfury/keycloak/ez/EzcaretechAuthenticator.java:99-105 | in the model, where only the role grant can fault, the synchronisation throws exactly when the realm lacks the default role, and then an internal error and a success are recorded while the writes made before the failure stay |
| Authenticator.CleanLoginSetsSyncedUser | src/main/java/dev/windfury/keycloak/ez/EzcaretechAuthenticator.java:59-105 | with the default role present the directory holds an enabled, verified record under the matched login id with the member's names, email, attributes and the default role, and the flow records that user and then success |
| Authenticator.StepIdempotent | src/main/java/dev/windfury/keycloak/ez/EzcaretechAuthenticator.java:59-105 | repeating the same login gives the same calls and the same directory |
| Authenticator.StepIgnoresCase | src/main/java/dev/windfury/keycloak/ez/EzcaretechAuthenticator.java:141 | usernames equal ignoring case give the same outcome |
| Authenticator.StepTouchesOneUser | src/main/java/dev/windfury/keycloak/ez/EzcaretechAuthenticator.java:61-65 | a login adds at most one record and changes no record other than the matched login id's |

## Left out

- The HTTP exchange and JSON decoding of `EzcaretechExternalApi` are not part of this model. Its two calls are a stub whose replies are fixed inputs: a token or null, a response or null with a list or null, or an `IOException`.
- `ObjectMapper` and the slf4j logging, including the log messages on the null paths, are left out. They are I/O with no effect on the outcome.
- The form is not modelled as a map. The username and password are the form's first values, and their types exclude null. A null username throws at line 141 only when a token, a response and a non-empty list came back. With a null token, a null response or list, or an empty list, it ends in the invalid-user failure at line 108. Neither path is modelled.
- Projector.CallExternalApi: requires, once a token has come back, the matched member's person name to be non-null (`NameAvailable`). The source dereferences it at line 153 without a check, so a null person name would throw on the null dereference, outside any catch block. That path is not modelled.
- Null elements inside the member list or the role list are excluded by their types.
- Keycloak internals are left out: the JPA storage, transactions, `addUser` lower-casing the username, and `addUser` granting the realm's default roles. `AddUser` creates an empty record under the name as given.
- Keycloak's lookup by username is case-insensitive. The model's directory is keyed by exact username.
- Host calls other than `grantRole(null)` never throw in the model. This covers `getUserByUsername`, `addUser`, the three profile setters, `setSingleAttribute`, `setEnabled` and `setEmailVerified`. As a result, the catch block at lines 101-104 is reached only from the role loop. A host fault part-way through lines 61-94 is not modelled. In the source, a fault at lines 61-64 leaves no new record. A later fault keeps the writes made before it: a new record stays disabled unless line 93 ran, and an existing record keeps its earlier enabled flag. In both cases `success()` at line 105 still runs.
- Host.UserModel.SetSingleAttribute: keeps a null value under its name rather than removing the attribute. This is why all 24 names become keys even when the User's fields are null. A host that removed the attribute on null would leave fewer keys.
- Host.UserModel.GrantRole: throws when given a null role. How Keycloak really fails on `grantRole(null)` is not modelled, only that an exception reaches the catch block.
- The `UserModel` passed to `setUser` is recorded by its username instead of by object identity.
- Concurrent logins for the same user are left out. They belong to the host.
- `action`, `setRequiredActions` and `close` do nothing and are not modelled. Neither is the constructor that stores the session.
- Text.EqualsIgnoreCaseIffSameUpper: case folding covers ASCII letters only. Java also folds non-ASCII letters.
