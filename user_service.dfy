// UserServiceImpl: read and update the authenticated user's profile,
// change the password, and soft-delete the account. The password encoder
// is a pair of parameters: encode, and matches(raw, encoded).

module UserService {
  import opened Common
  import opened Entities
  import opened Database
  import Validation

  datatype UpdateProfileRequest = UpdateProfileRequest(
    firstName: string,
    lastName: string,
    email: string,
    phoneNumber: string,
    dateFormat: Option<string>)

  datatype ChangePasswordRequest = ChangePasswordRequest(
    currentPassword: string,
    newPassword: string,
    confirmationPassword: string)

  /** UserProfileResponse; the country is given by its id. */
  datatype UserProfile = UserProfile(
    id: Id,
    username: string,
    email: string,
    firstName: string,
    lastName: string,
    phoneNumber: string,
    dateFormat: Option<string>,
    countryId: Id)

  const IncorrectPassword: string := "Incorrect current password"
  const PasswordMismatch: string := "New password and confirmation password do not match"

  /** toUserProfileResponse. */
  function ProfileOf(u: User): (p: UserProfile)
    ensures p.id == u.id && p.username == u.username && p.email == u.email
    ensures p.firstName == u.firstName && p.lastName == u.lastName && p.phoneNumber == u.phoneNumber
    ensures p.dateFormat == u.dateFormat && p.countryId == u.countryId
  {
    UserProfile(u.id, u.username, u.email, u.firstName, u.lastName, u.phoneNumber, u.dateFormat, u.countryId)
  }

  /** getUserProfile. */
  function GetUserProfile(users: seq<User>, username: string): (r: Result<UserProfile>)
    ensures r.Err? <==> forall u :: u in users ==> u.username != username
    ensures r.Err? ==> r.error == ResourceNotFound(UserMissing)
    ensures r.Ok? ==> exists u :: u in users && u.username == username && r.value == ProfileOf(u)
  {
    match CurrentUser(users, username, UserMissing)
    case Err(e) => Err(e)
    case Ok(u) => Ok(ProfileOf(u))
  }

  // ---------------------------------------------------------------------
  // updateUserProfile
  // ---------------------------------------------------------------------

  /** The five setters; a null dateFormat in the request clears the
      stored one. */
  function ProfileUpdated(u: User, req: UpdateProfileRequest): (v: User)
    ensures v.firstName == req.firstName && v.lastName == req.lastName && v.email == req.email
    ensures v.phoneNumber == req.phoneNumber && v.dateFormat == req.dateFormat
    ensures v.(firstName := u.firstName, lastName := u.lastName, email := u.email,
               phoneNumber := u.phoneNumber, dateFormat := u.dateFormat) == u
  {
    u.(firstName := req.firstName, lastName := req.lastName, email := req.email,
       phoneNumber := req.phoneNumber, dateFormat := req.dateFormat)
  }

  /** The date_format column is VARCHAR(10). */
  const DateFormatWidth: nat := 10

  /** The narrowest column that holds every pattern of the whitelist. */
  const WideDateFormatWidth: nat := 11

  /** A null date format fits any column; a string fits when it is no
      longer than the column. */
  predicate FitsColumn(f: Option<string>, width: nat)
  {
    f.None? || |f.value| <= width
  }

  /** What the database does with the updated user when the transaction
      commits, for a date_format column of the given width: a value too
      long for the column and an email another user already has are both
      refused, and then nothing is saved. */
  function ProfileSave(users: seq<User>, u: User, req: UpdateProfileRequest, width: nat): (r: Result<User>)
    ensures r.Ok? ==> r.value == ProfileUpdated(u, req) && r.value.dateFormat == req.dateFormat
    ensures r.Err? ==> r.error == DataIntegrityViolation
  {
    if !FitsColumn(req.dateFormat, width) || TakenByOther(users, UserKey, EmailKey, ProfileUpdated(u, req)) then
      Err(DataIntegrityViolation)
    else Ok(ProfileUpdated(u, req))
  }

  /** Of the formats the validator accepts by name, exactly the two with a
      month name do not fit the VARCHAR(10) column, so a profile update
      that chooses one of them always fails. */
  lemma LongPatternsRefused(users: seq<User>, u: User, req: UpdateProfileRequest)
    requires Validation.IsValidPattern(req.dateFormat)
    ensures !FitsColumn(req.dateFormat, DateFormatWidth) <==>
            req.dateFormat == Some("dd-MMM-yyyy") || req.dateFormat == Some("MMM-dd-yyyy")
    ensures req.dateFormat == Some("dd-MMM-yyyy") || req.dateFormat == Some("MMM-dd-yyyy") ==>
            ProfileSave(users, u, req, DateFormatWidth) == Err(DataIntegrityViolation)
  {
  }

  /** With a column wide enough for the whitelist, every listed format and
      a null are saved whenever the email is free. */
  lemma WideColumnStoresEveryPattern(users: seq<User>, u: User, req: UpdateProfileRequest)
    requires req.dateFormat.None? || Validation.IsValidPattern(req.dateFormat)
    requires !TakenByOther(users, UserKey, EmailKey, ProfileUpdated(u, req))
    ensures ProfileSave(users, u, req, WideDateFormatWidth) == Ok(ProfileUpdated(u, req))
  {
  }

  /** updateUserProfile. The database refuses a date format longer than
      its column and an email that another user already has; then nothing
      is saved. */
  method UpdateUserProfile(db: Db, username: string, req: UpdateProfileRequest) returns (r: Result<UserProfile>)
    requires db.Valid()
    modifies db`users
    ensures db.Valid()
    ensures match CurrentUser(old(db.users), username, UserMissing)
      case Err(e) => r == Err(e) && db.users == old(db.users)
      case Ok(u) =>
        if !FitsColumn(req.dateFormat, DateFormatWidth) ||
           TakenByOther(old(db.users), UserKey, EmailKey, ProfileUpdated(u, req)) then
          r == Err(DataIntegrityViolation) && db.users == old(db.users)
        else
          r == Ok(ProfileOf(ProfileUpdated(u, req))) &&
          db.users == ReplaceBy(old(db.users), UserKey, ProfileUpdated(u, req))
  {
    var cu := CurrentUser(db.users, username, UserMissing);
    if cu.Err? {
      return Err(cu.error);
    }
    var saved := ProfileSave(db.users, cu.value, req, DateFormatWidth);
    if saved.Err? {
      return Err(saved.error);
    }
    var v := ProfileUpdated(cu.value, req);
    SaveUser(db, cu.value, v);
    r := Ok(ProfileOf(v));
  }

  /** userRepository.save of a stored user whose username, id and code
      fields are kept and whose email no other user has. */
  method SaveUser(db: Db, u: User, v: User)
    requires db.Valid() && u in db.users
    requires v.id == u.id && v.username == u.username
    requires v.verificationToken == u.verificationToken && v.verificationTokenExpiry == u.verificationTokenExpiry
    requires !TakenByOther(db.users, UserKey, EmailKey, v)
    modifies db`users
    ensures db.Valid()
    ensures db.users == ReplaceBy(old(db.users), UserKey, v)
  {
    var saved := ReplaceBy(db.users, UserKey, v);
    UniqueReplace(db.users, UserKey, EmailKey, v);
    UniqueReplace(db.users, UserKey, UsernameKey, v);
    db.users := saved;
  }

  // ---------------------------------------------------------------------
  // changePassword
  // ---------------------------------------------------------------------

  /** The two checks of changePassword in their order: the current password
      first, then the confirmation. */
  function PasswordChecks(u: User, req: ChangePasswordRequest, matches: (string, string) -> bool): (r: Result<()>)
    ensures r == Err(BadCredentials(IncorrectPassword)) <==> !matches(req.currentPassword, u.password)
    ensures r == Err(IllegalArgument(PasswordMismatch)) <==>
      matches(req.currentPassword, u.password) && req.newPassword != req.confirmationPassword
    ensures r.Ok? <==> matches(req.currentPassword, u.password) && req.newPassword == req.confirmationPassword
  {
    if !matches(req.currentPassword, u.password) then Err(BadCredentials(IncorrectPassword))
    else if req.newPassword != req.confirmationPassword then Err(IllegalArgument(PasswordMismatch))
    else Ok(())
  }

  /** changePassword: on any failure the stored password is unchanged; on
      success it is the encoded new password. */
  method ChangePassword(db: Db, username: string, req: ChangePasswordRequest,
                        matches: (string, string) -> bool, encode: string -> string) returns (r: Result<()>)
    requires db.Valid()
    modifies db`users
    ensures db.Valid()
    ensures match CurrentUser(old(db.users), username, UserMissing)
      case Err(e) => r == Err(e) && db.users == old(db.users)
      case Ok(u) =>
        match PasswordChecks(u, req, matches)
        case Err(e) => r == Err(e) && db.users == old(db.users)
        case Ok(_) =>
          r == Ok(()) && db.users == ReplaceBy(old(db.users), UserKey, u.(password := encode(req.newPassword)))
  {
    var cu := CurrentUser(db.users, username, UserMissing);
    if cu.Err? {
      return Err(cu.error);
    }
    var u := cu.value;
    var checked := PasswordChecks(u, req, matches);
    if checked.Err? {
      return Err(checked.error);
    }
    SaveUser(db, u, u.(password := encode(req.newPassword)));
    r := Ok(());
  }

  /** After a successful change the user is found again by username and
      the new password is the one that matches, provided the encoder's
      matches accepts what encode produced. */
  lemma NewPasswordMatches(users: seq<User>, username: string, req: ChangePasswordRequest,
                           matches: (string, string) -> bool, encode: string -> string)
    requires UniqueBy(users, UserKey) && UniqueBy(users, UsernameKey)
    requires forall raw :: matches(raw, encode(raw))
    requires CurrentUser(users, username, UserMissing).Ok?
    requires PasswordChecks(CurrentUser(users, username, UserMissing).value, req, matches).Ok?
    ensures var u := CurrentUser(users, username, UserMissing).value;
      var saved := ReplaceBy(users, UserKey, u.(password := encode(req.newPassword)));
      CurrentUser(saved, username, UserMissing).Ok? &&
      PasswordChecks(CurrentUser(saved, username, UserMissing).value,
                     ChangePasswordRequest(req.newPassword, req.newPassword, req.newPassword), matches).Ok?
  {
    var u := CurrentUser(users, username, UserMissing).value;
    var v := u.(password := encode(req.newPassword));
    var saved := ReplaceBy(users, UserKey, v);
    UniqueReplace(users, UserKey, UsernameKey, v);
    var i :| 0 <= i < |users| && users[i] == u;
    assert saved[i] == v;
    FindByUnique(saved, UsernameKey, v);
  }

  // ---------------------------------------------------------------------
  // deleteUserProfile
  // ---------------------------------------------------------------------

  /** The soft delete: inactive, deleted, no refresh token. */
  function SoftDeleted(u: User): (v: User)
    ensures !v.isActive && v.isDeleted && v.refreshToken.None? && !IsEnabled(v)
    ensures v.(isActive := u.isActive, isDeleted := u.isDeleted, refreshToken := u.refreshToken) == u
  {
    u.(isActive := false, isDeleted := true, refreshToken := None)
  }

  /** deleteUserProfile: the record stays, disabled. */
  method DeleteUserProfile(db: Db, username: string) returns (r: Result<()>)
    requires db.Valid()
    modifies db`users
    ensures db.Valid()
    ensures match CurrentUser(old(db.users), username, UserMissing)
      case Err(e) => r == Err(e) && db.users == old(db.users)
      case Ok(u) => r == Ok(()) && db.users == ReplaceBy(old(db.users), UserKey, SoftDeleted(u))
  {
    var cu := CurrentUser(db.users, username, UserMissing);
    if cu.Err? {
      return Err(cu.error);
    }
    SaveUser(db, cu.value, SoftDeleted(cu.value));
    r := Ok(());
  }

  /** The record is kept, so the same user is found again, disabled; and
      deleting a second time leaves the table as the first time did. */
  lemma {:induction false} DeleteUserProfileIdempotent(users: seq<User>, username: string)
    requires UniqueBy(users, UserKey) && UniqueBy(users, UsernameKey)
    requires CurrentUser(users, username, UserMissing).Ok?
    ensures var u := CurrentUser(users, username, UserMissing).value;
      var once := ReplaceBy(users, UserKey, SoftDeleted(u));
      |once| == |users| &&
      CurrentUser(once, username, UserMissing) == Ok(SoftDeleted(u)) &&
      ReplaceBy(once, UserKey, SoftDeleted(SoftDeleted(u))) == once
  {
    var u := CurrentUser(users, username, UserMissing).value;
    var v := SoftDeleted(u);
    var once := ReplaceBy(users, UserKey, v);
    UniqueReplace(users, UserKey, UsernameKey, v);
    var i :| 0 <= i < |users| && users[i] == u;
    assert once[i] == v;
    FindByUnique(once, UsernameKey, v);
    var twice := ReplaceBy(once, UserKey, SoftDeleted(v));
    assert SoftDeleted(v) == v;
    assert forall k :: 0 <= k < |once| ==> twice[k] == once[k];
  }
}
