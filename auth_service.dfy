// AuthServiceImpl: registration with a six-digit verification code,
// account verification, refresh of the access token from an
// "Authorization: Bearer <token>" header (section 2.1 of RFC 6750, matched
// case-sensitively with exactly one space), logout, and re-sending the
// verification code. The clock, the random draw, the password encoder and
// the tokens JwtService issues are parameters.

module AuthService {
  import opened Common
  import opened Calendar
  import opened Entities
  import opened Database
  import opened Digits

  datatype RegisterRequest = RegisterRequest(
    username: string,
    email: string,
    password: string,
    firstName: string,
    lastName: string,
    phoneNumber: string,
    countryId: Id)

  datatype VerificationRequest = VerificationRequest(identifier: string, token: string)

  /** AuthenticationResponse; both tokens are null after registration. */
  datatype AuthResponse = AuthResponse(accessToken: Option<string>, refreshToken: Option<string>)

  const UsernameTaken: string := "Username already taken"
  const EmailTaken: string := "Email already registered"
  const InvalidVerificationToken: string := "Invalid verification token."
  const VerificationExpired: string := "Verification token has expired. Please request a new one."
  const AlreadyVerified: string := "This account has already been verified."
  const MalformedRefresh: string := "Refresh token is missing or malformed"
  const InvalidRefresh: string := "Invalid refresh token"
  const RefreshExpired: string := "Refresh token has expired. Please log in again."

  function InvalidCountry(id: Id): string
  {
    "Invalid Country ID: " + ToDecimal(id)
  }

  function IdentifierMissing(identifier: string): string
  {
    "User not found with identifier: " + identifier
  }

  /** The exclusive bound passed to SecureRandom.nextInt. */
  const CodeBound: nat := 999999

  /** The verification code validity, in minutes. */
  const CodeMinutes: nat := 15

  // ---------------------------------------------------------------------
  // generateVerificationToken
  // ---------------------------------------------------------------------

  /** DecimalFormat("000000").format(draw): six digits, zero-padded. */
  function VerificationCode(draw: nat): (s: string)
    requires draw < CodeBound
    ensures |s| == 6 && AllDigits(s) && ValueOf(s) == draw
  {
    PadDigits(draw, 6)
  }

  /** Every six-digit string below "999999" is the code of exactly its own
      value; "999999" itself is never produced. */
  lemma VerificationCodeRange(s: string)
    requires |s| == 6 && AllDigits(s)
    ensures ValueOf(s) < CodeBound ==> VerificationCode(ValueOf(s)) == s
    ensures forall draw :: 0 <= draw < CodeBound ==> VerificationCode(draw) != "999999"
  {
    PadDigitsOfValue(s);
    forall draw | 0 <= draw < CodeBound
      ensures VerificationCode(draw) != "999999"
    {
      var c := VerificationCode(draw);
      if c == "999999" {
        NinesValue();
        assert false;
      }
    }
  }

  lemma NinesValue()
    ensures ValueOf("999999") == 999999
  {
    assert "999999"[..5] == "99999";
    assert "99999"[..4] == "9999";
    assert "9999"[..3] == "999";
    assert "999"[..2] == "99";
    assert "99"[..1] == "9";
    assert "9"[..0] == "";
  }

  // ---------------------------------------------------------------------
  // register
  // ---------------------------------------------------------------------

  /** The checks of register in their order: username, then email, then
      the country; the country row is what the new user refers to. */
  function RegisterChecks(users: seq<User>, countries: seq<Country>, req: RegisterRequest): (r: Result<Country>)
    ensures r == Err(IllegalState(UsernameTaken)) <==> exists u :: u in users && u.username == req.username
    ensures r == Err(IllegalState(EmailTaken)) <==>
      (forall u :: u in users ==> u.username != req.username) && exists u :: u in users && u.email == req.email
    ensures r.Ok? <==>
      (forall u :: u in users ==> u.username != req.username && u.email != req.email) &&
      exists c :: c in countries && c.id == req.countryId
    ensures r.Err? ==>
      r.error in {IllegalState(UsernameTaken), IllegalState(EmailTaken), IllegalArgument(InvalidCountry(req.countryId))}
    ensures r.Ok? ==> r.value in countries && r.value.id == req.countryId
  {
    if FindBy(users, UsernameKey, req.username).Some? then Err(IllegalState(UsernameTaken))
    else if FindBy(users, EmailKey, req.email).Some? then Err(IllegalState(EmailTaken))
    else
      match FindBy(countries, CountryKey, req.countryId)
      case None => Err(IllegalArgument(InvalidCountry(req.countryId)))
      case Some(c) => Ok(c)
  }

  /** The saved user: the mapped fields, the encoded password, the code and
      its expiry, inactive and not deleted. */
  function NewAccount(id: Id, req: RegisterRequest, encode: string -> string, code: string, now: DateTime)
    : (u: User)
    requires ValidDateTime(now)
    ensures !IsEnabled(u) && !u.isActive && !u.isDeleted
    ensures u.verificationToken == Some(code)
    ensures u.verificationTokenExpiry == Some(PlusMinutes(now, CodeMinutes))
    ensures u.password == encode(req.password) && u.dateFormat == Some(DefaultDateFormat)
    ensures u.id == id && u.username == req.username && u.email == req.email && u.countryId == req.countryId
    ensures u.firstName == req.firstName && u.lastName == req.lastName && u.phoneNumber == req.phoneNumber
    ensures u.refreshToken.None?
  {
    BuildUser(id, req.email, req.username, req.firstName, req.lastName, req.phoneNumber, req.countryId).(
      verificationToken := Some(code),
      verificationTokenExpiry := Some(PlusMinutes(now, CodeMinutes)),
      password := encode(req.password),
      isActive := false,
      isDeleted := false)
  }

  /** register: nothing is saved unless every check passes; the response
      carries no token. */
  method Register(db: Db, req: RegisterRequest, encode: string -> string, draw: nat, now: DateTime)
    returns (r: Result<AuthResponse>)
    requires db.Valid() && draw < CodeBound && ValidDateTime(now)
    modifies db`users, db`nextId
    ensures db.Valid()
    ensures match RegisterChecks(old(db.users), db.countries, req)
      case Err(e) => r == Err(e) && db.users == old(db.users)
      case Ok(_) =>
        r == Ok(AuthResponse(None, None)) &&
        db.users == old(db.users) + [NewAccount(old(db.nextId), req, encode, VerificationCode(draw), now)]
  {
    var checked := RegisterChecks(db.users, db.countries, req);
    if checked.Err? {
      return Err(checked.error);
    }
    var code := VerificationCode(draw);
    var id := db.FreshId();
    var u := NewAccount(id, req, encode, code, now);
    UniqueAppend(db.users, UserKey, u);
    UniqueAppend(db.users, UsernameKey, u);
    UniqueAppend(db.users, EmailKey, u);
    db.users := db.users + [u];
    r := Ok(AuthResponse(None, None));
  }

  // ---------------------------------------------------------------------
  // Lookup by username or email
  // ---------------------------------------------------------------------

  /** findByUsername(identifier).or(findByEmail(identifier)): a username
      match wins over an email match. */
  function FindByIdentifier(users: seq<User>, identifier: string): (r: Result<User>)
    ensures r.Ok? ==> r.value in users && (r.value.username == identifier || r.value.email == identifier)
    ensures (exists u :: u in users && u.username == identifier) ==> r.Ok? && r.value.username == identifier
    ensures r.Err? <==> forall u :: u in users ==> u.username != identifier && u.email != identifier
    ensures r.Err? ==> r.error == ResourceNotFound(IdentifierMissing(identifier))
  {
    match FindBy(users, UsernameKey, identifier)
    case Some(u) => Ok(u)
    case None =>
      match FindBy(users, EmailKey, identifier)
      case Some(u) => Ok(u)
      case None => Err(ResourceNotFound(IdentifierMissing(identifier)))
  }

  ghost predicate UniqueUsers(users: seq<User>)
  {
    UniqueBy(users, UserKey) && UniqueBy(users, UsernameKey) && UniqueBy(users, EmailKey)
  }

  /** Saving the found user with the same username and email finds the
      saved row by the same identifier. */
  lemma FindByIdentifierAfterSave(users: seq<User>, identifier: string, u: User, v: User)
    requires UniqueUsers(users) && FindByIdentifier(users, identifier) == Ok(u)
    requires v.id == u.id && v.username == u.username && v.email == u.email
    ensures UniqueUsers(ReplaceBy(users, UserKey, v))
    ensures FindByIdentifier(ReplaceBy(users, UserKey, v), identifier) == Ok(v)
  {
    var saved := ReplaceBy(users, UserKey, v);
    UniqueReplace(users, UserKey, UsernameKey, v);
    UniqueReplace(users, UserKey, EmailKey, v);
    var i :| 0 <= i < |users| && users[i] == u;
    assert saved[i] == v;
    FindByUnique(saved, UsernameKey, v);
    FindByUnique(saved, EmailKey, v);
    if v.username != identifier {
      forall w | w in saved
        ensures w.username != identifier
      {
        var k :| 0 <= k < |saved| && saved[k] == w;
        if users[k].id != v.id {
          assert users[k] in users;
        }
      }
    }
  }

  // ---------------------------------------------------------------------
  // verifyAccount
  // ---------------------------------------------------------------------

  /** isBefore(now): the code's expiry lies strictly before now. */
  predicate CodeExpired(expiry: DateTime, now: DateTime)
  {
    IsBeforeTime(expiry, now)
  }

  /** The checks of verifyAccount in their order: the user, the code (a
      missing code never matches), then its expiry. The result is the user
      the code belongs to. */
  function VerifyChecks(users: seq<User>, req: VerificationRequest, now: DateTime): (r: Result<User>)
    requires forall u :: u in users ==> u.verificationToken.Some? ==> u.verificationTokenExpiry.Some?
    ensures r.Ok? ==> r == FindByIdentifier(users, req.identifier)
    ensures r.Ok? ==> r.value.verificationToken == Some(req.token)
    ensures r.Ok? ==> !CodeExpired(r.value.verificationTokenExpiry.value, now)
    ensures FindByIdentifier(users, req.identifier).Err? ==> r == FindByIdentifier(users, req.identifier)
    ensures FindByIdentifier(users, req.identifier).Ok? ==>
      (r == Err(BadCredentials(InvalidVerificationToken)) <==>
       FindByIdentifier(users, req.identifier).value.verificationToken != Some(req.token))
    ensures r.Err? ==> r.error in {ResourceNotFound(IdentifierMissing(req.identifier)),
                                   BadCredentials(InvalidVerificationToken), IllegalState(VerificationExpired)}
  {
    match FindByIdentifier(users, req.identifier)
    case Err(e) => Err(e)
    case Ok(u) =>
      if u.verificationToken != Some(req.token) then Err(BadCredentials(InvalidVerificationToken))
      else if CodeExpired(u.verificationTokenExpiry.value, now) then Err(IllegalState(VerificationExpired))
      else Ok(u)
  }

  /** setActive(true), with the code and its expiry cleared. */
  function Activated(u: User): (v: User)
    ensures v.isActive && v.verificationToken.None? && v.verificationTokenExpiry.None?
    ensures v.(isActive := u.isActive, verificationToken := u.verificationToken,
               verificationTokenExpiry := u.verificationTokenExpiry) == u
  {
    u.(isActive := true, verificationToken := None, verificationTokenExpiry := None)
  }

  /** createAndSaveRefreshToken: the token JwtService issues, expiring
      refreshExpiration milliseconds after now. */
  function NewRefreshToken(id: Id, token: string, now: int, refreshExpiration: nat, user: Id): (t: RefreshToken)
    ensures t.id == id && t.token == token && t.userId == user && t.expiryDate == now + refreshExpiration
  {
    RefreshToken(id, token, now + refreshExpiration, user)
  }

  /** createAndSaveRefreshToken, for a token text not yet stored. */
  method CreateAndSaveRefreshToken(db: Db, token: string, now: int, refreshExpiration: nat, user: Id)
    requires db.Valid() && !Taken(db.refreshTokens, TokenKey, token)
    modifies db`refreshTokens, db`nextId
    ensures db.Valid() && db.nextId == old(db.nextId) + 1
    ensures db.refreshTokens ==
      old(db.refreshTokens) + [NewRefreshToken(old(db.nextId), token, now, refreshExpiration, user)]
  {
    var id := db.FreshId();
    var t := NewRefreshToken(id, token, now, refreshExpiration, user);
    UniqueAppend(db.refreshTokens, RefreshTokenKey, t);
    UniqueAppend(db.refreshTokens, TokenKey, t);
    db.refreshTokens := db.refreshTokens + [t];
  }

  /** verifyAccount. On success the user is activated and a refresh token
      saved; if that token's text is already stored, the unique constraint
      fails and the whole transaction rolls back. */
  method VerifyAccount(db: Db, req: VerificationRequest, now: DateTime, accessToken: string,
                       refreshText: string, instant: int, refreshExpiration: nat)
    returns (r: Result<AuthResponse>)
    requires db.Valid()
    modifies db`users, db`refreshTokens, db`nextId
    ensures db.Valid()
    ensures match VerifyChecks(old(db.users), req, now)
      case Err(e) => r == Err(e) && db.users == old(db.users) && db.refreshTokens == old(db.refreshTokens)
      case Ok(u) =>
        if Taken(old(db.refreshTokens), TokenKey, refreshText) then
          r == Err(DataIntegrityViolation) && db.users == old(db.users) &&
          db.refreshTokens == old(db.refreshTokens)
        else
          r == Ok(AuthResponse(Some(accessToken), Some(refreshText))) &&
          db.users == ReplaceBy(old(db.users), UserKey, Activated(u)) &&
          db.refreshTokens ==
            old(db.refreshTokens) + [NewRefreshToken(old(db.nextId), refreshText, instant, refreshExpiration, u.id)]
  {
    var checked := VerifyChecks(db.users, req, now);
    if checked.Err? {
      return Err(checked.error);
    }
    if Taken(db.refreshTokens, TokenKey, refreshText) {
      return Err(DataIntegrityViolation);
    }
    var u := checked.value;
    var v := Activated(u);
    FindByIdentifierAfterSave(db.users, req.identifier, u, v);
    db.users := ReplaceBy(db.users, UserKey, v);
    CreateAndSaveRefreshToken(db, refreshText, instant, refreshExpiration, u.id);
    r := Ok(AuthResponse(Some(accessToken), Some(refreshText)));
  }

  /** A code is good for one use: once the account is activated, the same
      request fails with BadCredentials, at any later time. */
  lemma VerifyAgainFails(users: seq<User>, req: VerificationRequest, now: DateTime, later: DateTime)
    requires UniqueUsers(users)
    requires forall u :: u in users ==> u.verificationToken.Some? ==> u.verificationTokenExpiry.Some?
    requires VerifyChecks(users, req, now).Ok?
    ensures var saved := ReplaceBy(users, UserKey, Activated(VerifyChecks(users, req, now).value));
      (forall u :: u in saved ==> u.verificationToken.Some? ==> u.verificationTokenExpiry.Some?) &&
      VerifyChecks(saved, req, later) == Err(BadCredentials(InvalidVerificationToken))
  {
    var u := VerifyChecks(users, req, now).value;
    FindByIdentifierAfterSave(users, req.identifier, u, Activated(u));
  }

  // ---------------------------------------------------------------------
  // resendVerificationToken
  // ---------------------------------------------------------------------

  /** A new code with a new expiry; nothing else about the user changes. */
  function Reissued(u: User, code: string, now: DateTime): (v: User)
    requires ValidDateTime(now)
    ensures v.verificationToken == Some(code) && v.verificationTokenExpiry == Some(PlusMinutes(now, CodeMinutes))
    ensures v.(verificationToken := u.verificationToken, verificationTokenExpiry := u.verificationTokenExpiry) == u
  {
    u.(verificationToken := Some(code), verificationTokenExpiry := Some(PlusMinutes(now, CodeMinutes)))
  }

  /** resendVerificationToken: refused for an active account; otherwise the
      user gets a new code. A soft-deleted account is inactive, so it is
      not refused. */
  method ResendVerificationToken(db: Db, identifier: string, draw: nat, now: DateTime) returns (r: Result<()>)
    requires db.Valid() && draw < CodeBound && ValidDateTime(now)
    modifies db`users
    ensures db.Valid()
    ensures match FindByIdentifier(old(db.users), identifier)
      case Err(e) => r == Err(e) && db.users == old(db.users)
      case Ok(u) =>
        if u.isActive then r == Err(IllegalState(AlreadyVerified)) && db.users == old(db.users)
        else r == Ok(()) && db.users == ReplaceBy(old(db.users), UserKey, Reissued(u, VerificationCode(draw), now))
  {
    var found := FindByIdentifier(db.users, identifier);
    if found.Err? {
      return Err(found.error);
    }
    var u := found.value;
    if u.isActive {
      return Err(IllegalState(AlreadyVerified));
    }
    var v := Reissued(u, VerificationCode(draw), now);
    FindByIdentifierAfterSave(db.users, identifier, u, v);
    db.users := ReplaceBy(db.users, UserKey, v);
    r := Ok(());
  }

  /** The new code verifies the account until its expiry, the expiry
      instant included. */
  lemma ResentCodeVerifies(users: seq<User>, identifier: string, draw: nat, now: DateTime, at: DateTime)
    requires UniqueUsers(users) && draw < CodeBound && ValidDateTime(now)
    requires forall u :: u in users ==> u.verificationToken.Some? ==> u.verificationTokenExpiry.Some?
    requires FindByIdentifier(users, identifier).Ok?
    requires Timeline(at) <= Timeline(PlusMinutes(now, CodeMinutes))
    ensures var u := FindByIdentifier(users, identifier).value;
      var saved := ReplaceBy(users, UserKey, Reissued(u, VerificationCode(draw), now));
      (forall w :: w in saved ==> w.verificationToken.Some? ==> w.verificationTokenExpiry.Some?) &&
      VerifyChecks(saved, VerificationRequest(identifier, VerificationCode(draw)), at) ==
        Ok(Reissued(u, VerificationCode(draw), now))
  {
    var u := FindByIdentifier(users, identifier).value;
    FindByIdentifierAfterSave(users, identifier, u, Reissued(u, VerificationCode(draw), now));
  }

  // ---------------------------------------------------------------------
  // refreshToken and logout
  // ---------------------------------------------------------------------

  /** The token of an Authorization header: the text after "Bearer ", when
      the header is present and starts with exactly that prefix. */
  function BearerToken(header: Option<string>): (r: Option<string>)
    ensures r.Some? <==> header.Some? && StartsWith(header.value, "Bearer ")
    ensures r.Some? ==> header.value == "Bearer " + r.value
  {
    if header.Some? && StartsWith(header.value, "Bearer ") then
      var h := header.value;
      assert h == h[..7] + h[7..];
      Some(h[7..])
    else None
  }

  /** The header the client sends gives back the token it carries. */
  lemma BearerTokenRoundTrip(token: string)
    ensures BearerToken(Some("Bearer " + token)) == Some(token)
  {
    var h := "Bearer " + token;
    assert h[..7] == "Bearer ";
    assert h[7..] == token;
  }

  /** The scheme is matched case-sensitively, a second space stays in the
      token, and a bare scheme without the space is refused. */
  lemma BearerTokenExact()
    ensures BearerToken(Some("bearer abc")) == None
    ensures BearerToken(Some("Bearer  abc")) == Some(" abc")
    ensures BearerToken(Some("Bearer")) == None
    ensures BearerToken(None) == None
  {
    assert "bearer abc"[0] != "Bearer "[0];
    BearerTokenRoundTrip(" abc");
    assert "Bearer " + " abc" == "Bearer  abc";
  }

  /** verifyTokenExpiration: expiryDate.isBefore(now). */
  predicate RefreshExpiredAt(t: RefreshToken, now: int)
  {
    t.expiryDate < now
  }

  /** refreshToken. A live token yields a new access token and the same
      refresh token (no rotation); an expired one is deleted before the
      error. */
  method Refresh(db: Db, header: Option<string>, now: int, accessToken: string) returns (r: Result<AuthResponse>)
    requires db.Valid()
    modifies db`refreshTokens
    ensures db.Valid()
    ensures match BearerToken(header)
      case None => r == Err(BadCredentials(MalformedRefresh)) && db.refreshTokens == old(db.refreshTokens)
      case Some(token) =>
        match FindBy(old(db.refreshTokens), TokenKey, token)
        case None => r == Err(BadCredentials(InvalidRefresh)) && db.refreshTokens == old(db.refreshTokens)
        case Some(t) =>
          if RefreshExpiredAt(t, now) then
            r == Err(IllegalState(RefreshExpired)) &&
            db.refreshTokens == RemoveBy(old(db.refreshTokens), RefreshTokenKey, t.id)
          else
            r == Ok(AuthResponse(Some(accessToken), Some(token))) && db.refreshTokens == old(db.refreshTokens)
  {
    var token := BearerToken(header);
    if token.None? {
      return Err(BadCredentials(MalformedRefresh));
    }
    var found := FindBy(db.refreshTokens, TokenKey, token.value);
    if found.None? {
      return Err(BadCredentials(InvalidRefresh));
    }
    var t := found.value;
    if RefreshExpiredAt(t, now) {
      db.refreshTokens := RemoveBy(db.refreshTokens, RefreshTokenKey, t.id);
      return Err(IllegalState(RefreshExpired));
    }
    r := Ok(AuthResponse(Some(accessToken), Some(token.value)));
  }

  /** logout: a header without the Bearer prefix is ignored; otherwise the
      stored token with that text, if any, is deleted. */
  method Logout(db: Db, header: Option<string>)
    requires db.Valid()
    modifies db`refreshTokens
    ensures db.Valid()
    ensures match BearerToken(header)
      case None => db.refreshTokens == old(db.refreshTokens)
      case Some(token) =>
        match FindBy(old(db.refreshTokens), TokenKey, token)
        case None => db.refreshTokens == old(db.refreshTokens)
        case Some(t) => db.refreshTokens == RemoveBy(old(db.refreshTokens), RefreshTokenKey, t.id)
  {
    var token := BearerToken(header);
    if token.None? {
      return;
    }
    var found := FindBy(db.refreshTokens, TokenKey, token.value);
    if found.Some? {
      db.refreshTokens := RemoveBy(db.refreshTokens, RefreshTokenKey, found.value.id);
    }
  }

  /** After logout the token is gone: refreshing with the same header is
      refused as an unknown token. Every other token stays stored. */
  lemma LogoutRevokes(tokens: seq<RefreshToken>, token: string)
    requires UniqueBy(tokens, RefreshTokenKey) && UniqueBy(tokens, TokenKey)
    requires FindBy(tokens, TokenKey, token).Some?
    ensures var after := RemoveBy(tokens, RefreshTokenKey, FindBy(tokens, TokenKey, token).value.id);
      FindBy(after, TokenKey, token).None? &&
      forall t :: t in tokens && t.token != token ==> t in after
  {
    var t := FindBy(tokens, TokenKey, token).value;
    var after := RemoveBy(tokens, RefreshTokenKey, t.id);
    forall x | x in after
      ensures x.token != token
    {
      assert x in tokens && x.id != t.id;
    }
  }
}
