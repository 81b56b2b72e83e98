/** The account lifecycle of identity-service: the eight controllers under
    identity-service/src/controllers/ as guarded transitions on a store of
    users, plus `generateTokens`' refresh-token records. The request-body
    validators, argon2, `Math.random`, `Date.now()` and `crypto.randomBytes`
    are parameters; RabbitMQ `publishEvent` appends to an event log. */
module Identity {
  import opened Wrappers
  import opened Text
  import opened UserModel
  import opened Tokens
  import AuthMiddleware

  /** The part of the user a successful login returns. */
  datatype Profile = Profile(firstName: string, lastName: Option<string>, email: string)

  /** A controller's answer: status, message, the cookies set or cleared on
      the response, and the login profile. */
  datatype Reply = Reply(status: int, message: string, cookies: seq<CookieOp>, profile: Option<Profile>)

  function Failure(status: int, message: string): Reply {
    Reply(status, message, [], None)
  }

  /** Messages published on the "identity.service" exchange, by routing key. */
  datatype Event =
    | UserRegistered(email: string, code: string)        // "user.registered"
    | UserVerified(userId: UserId)                       // "user.verified"
    | PasswordResetRequested(email: string, code: string) // "user.forgot_password"
    | PasswordResetSuccessful(email: string)             // "user.reset_password.successful"

  datatype RegistrationData = RegistrationData(firstName: string, lastName: Option<string>, email: string, password: string)

  const CodeLifetimeMs: int := 3 * 60 * 1000

  /** `Math.floor(100000 + r * 900000)` for a random `r` in [0, 1). */
  function GenerateCode(r: real): (code: int)
    requires 0.0 <= r < 1.0
    ensures 100000 <= code <= 999999
  {
    (100000.0 + r * 900000.0).Floor
  }

  /** The code's `toString()`: always six decimal digits. */
  function CodeOf(r: real): (code: string)
    requires 0.0 <= r < 1.0
    ensures |code| == 6
    ensures forall i :: 0 <= i < |code| ==> '0' <= code[i] <= '9'
    ensures DigitsValue(code) == GenerateCode(r)
  {
    var n := GenerateCode(r);
    DecimalSixDigits(n);
    DecimalRoundTrip(n);
    Decimal(n)
  }

  /** `expiry && expiry < new Date()`: a null expiry never counts as expired. */
  predicate Expired(expiry: Option<int>, now: int) {
    expiry.Some? && expiry.value < now
  }

  /** `user.twoFactorCode !== code` is false; a cleared (null) code matches nothing. */
  predicate CodeMatches(stored: Option<string>, given: string) {
    stored == Some(given)
  }

  /** At most one user per email. */
  ghost predicate UniqueEmails(users: map<UserId, User>) {
    forall a, b :: a in users && b in users && a != b ==> users[a].email != users[b].email
  }

  /** The user `findOne({ email })` finds. */
  ghost function Owner(users: map<UserId, User>, email: string): (r: Option<UserId>)
    ensures r.Some? ==> r.value in users && users[r.value].email == email
    ensures r.None? ==> forall id :: id in users ==> users[id].email != email
  {
    if exists id :: id in users && users[id].email == email then
      var id :| id in users && users[id].email == email;
      Some(id)
    else None
  }

  lemma OwnerIs(users: map<UserId, User>, email: string, id: UserId)
    requires UniqueEmails(users) && id in users && users[id].email == email
    ensures Owner(users, email) == Some(id)
  {
  }

  /** Verified users stay in the store and stay verified. */
  ghost predicate VerifiedKept(before: map<UserId, User>, after: map<UserId, User>) {
    forall id :: id in before && before[id].isVerified ==> id in after && after[id].isVerified
  }

  /** No user becomes verified. */
  ghost predicate NoneNewlyVerified(before: map<UserId, User>, after: map<UserId, User>) {
    forall id :: id in after && after[id].isVerified ==> id in before && before[id].isVerified
  }

  function WithCode(u: User, code: string, now: int): User {
    u.(twoFactorCode := Some(code), twoFactorCodeExpiry := Some(now + CodeLifetimeMs))
  }

  function Verified(u: User): User {
    u.(isVerified := true, twoFactorCode := None, twoFactorCodeExpiry := None)
  }

  /** What `registerUser` hands to `User.create`: the role is ADMIN exactly
      when the raw email equals ADMIN_ACCOUNT, the code expires in 3 minutes. */
  function RegistrationInput(env: Env, body: RegistrationData, hashed: string, code: string, now: int): UserInput {
    UserInput(Some(body.firstName), body.lastName, Some(body.email), hashed,
              Some(if env.adminAccount == Some(body.email) then ADMIN else USER),
              Some(code), Some(now + CodeLifetimeMs))
  }

  /** The record `registerUser` creates: the hashed password, role ADMIN
      exactly for the raw ADMIN_ACCOUNT email, unverified, with the code that
      expires 180000 ms from now, and the email normalised. */
  lemma RegisteredRecord(env: Env, body: RegistrationData, hashed: string, code: string, now: int)
    ensures CreateUser(RegistrationInput(env, body, hashed, code, now)).Ok? <==>
      body.firstName != "" && NormalizeEmail(body.email) != "" && hashed != ""
    ensures CreateUser(RegistrationInput(env, body, hashed, code, now)).Ok? ==>
      var u := CreateUser(RegistrationInput(env, body, hashed, code, now)).value;
      && u.firstName == body.firstName && u.lastName == body.lastName
      && u.email == NormalizeEmail(body.email)
      && u.password == hashed
      && u.role == (if env.adminAccount == Some(body.email) then ADMIN else USER)
      && !u.isVerified
      && u.twoFactorCode == Some(code)
      && u.twoFactorCodeExpiry == Some(now + 180000)
  {
  }

  class IdentityStore {
    var users: map<UserId, User>
    var events: seq<Event>
    var refreshTokens: seq<RefreshRecord>
    const env: Env

    /** At most one user per email, as the schema's unique index demands. */
    ghost predicate Valid()
      reads this
    {
      UniqueEmails(users)
    }

    constructor(env: Env)
      ensures Valid()
      ensures users == map[] && events == [] && refreshTokens == [] && this.env == env
    {
      users := map[];
      events := [];
      refreshTokens := [];
      this.env := env;
    }

    /** `User.findOne({ email })`: the filter passes through the email setters. */
    method FindByEmail(email: string) returns (found: Option<UserId>)
      requires Valid()
      ensures found == Owner(users, NormalizeEmail(email))
    {
      var e := NormalizeEmail(email);
      if id :| id in users && users[id].email == e {
        OwnerIs(users, e, id);
        return Some(id);
      }
      return None;
    }

    /** `generateTokens`: stores a refresh-token record that expires 18 days
        from now and sets the refresh and access cookies, returning the very
        values it put in them. */
    method GenerateTokens(id: UserId, u: User, now: int, randomHex: string)
      returns (access: Token, refresh: string, cookies: seq<CookieOp>)
      modifies this
      ensures users == old(users) && events == old(events)
      ensures refreshTokens == old(refreshTokens) + [RefreshRecord(randomHex, id, now + RefreshLifetimeMs)]
      ensures access == AccessToken(id, u) && refresh == randomHex
      ensures cookies == SessionCookies(env, access, RefreshRecord(refresh, id, now + RefreshLifetimeMs), now)
      ensures cookies[0].value == Opaque(refresh) && cookies[1].value == access
    {
      access := AccessToken(id, u);
      refresh := randomHex;
      var expiresAt := now + RefreshLifetimeMs;
      refreshTokens := refreshTokens + [RefreshRecord(refresh, id, expiresAt)];
      cookies := SessionCookies(env, access, RefreshRecord(refresh, id, expiresAt), now);
    }

    /** The existing-email step of `registerUser`: a verified owner of the
        email blocks the registration; an unverified one is deleted. */
    method ClearUnverified(email: string) returns (taken: bool)
      requires Valid()
      modifies this
      ensures Valid()
      ensures events == old(events) && refreshTokens == old(refreshTokens)
      ensures taken <==> Owner(old(users), NormalizeEmail(email)).Some?
                         && old(users)[Owner(old(users), NormalizeEmail(email)).value].isVerified
      ensures taken ==> users == old(users)
      ensures !taken ==> users == old(users) - (if Owner(old(users), NormalizeEmail(email)).Some?
                                                then {Owner(old(users), NormalizeEmail(email)).value} else {})
      ensures !taken ==> forall id :: id in users ==> users[id].email != NormalizeEmail(email)
      ensures forall id :: id in old(users) && id !in users ==>
        !old(users)[id].isVerified && old(users)[id].email == NormalizeEmail(email)
      ensures forall id :: id in users ==> id in old(users) && users[id] == old(users)[id]
    {
      var existing := FindByEmail(email);
      if existing.Some? {
        if users[existing.value].isVerified {
          return true;
        }
        users := users - {existing.value};
      }
      return false;
    }

    /** Storing a new user whose email no user holds keeps emails unique. */
    method AddUser(id: UserId, user: User)
      requires UniqueEmails(users) && id !in users
      requires forall other :: other in users ==> users[other].email != user.email
      modifies this
      ensures users == old(users)[id := user] && UniqueEmails(users)
      ensures events == old(events) && refreshTokens == old(refreshTokens)
    {
      users := users[id := user];
    }

    /** The creation step of `registerUser`: code, password hash,
        `User.create`, verification cookie and `user.registered` event. */
    method CreateAccount(body: RegistrationData, newId: UserId, r: real, now: int, hash: string -> string)
      returns (reply: Reply)
      requires UniqueEmails(users)
      requires 0.0 <= r < 1.0
      requires newId !in users
      requires forall id :: id in users ==> users[id].email != NormalizeEmail(body.email)
      modifies this
      ensures UniqueEmails(users)
      ensures refreshTokens == old(refreshTokens)
      ensures var input := RegistrationInput(env, body, hash(body.password), CodeOf(r), now);
        if MissingPaths(input) == [] then
          && users == old(users)[newId := CreateUser(input).value]
          && events == old(events) + [UserRegistered(CreateUser(input).value.email, CodeOf(r))]
          && reply == Reply(201, "User registered successfully",
                            [VerificationCookie(env, newId, CreateUser(input).value.email, now)], None)
        else
          users == old(users) && events == old(events) && reply == Failure(500, ValidationMessage(MissingPaths(input)))
      ensures forall id :: id in old(users) ==> id in users && users[id] == old(users)[id]
      ensures forall id :: id in users && id !in old(users) ==> id == newId && reply.status == 201 && !users[id].isVerified
    {
      var code := CodeOf(r);
      var hashed := hash(body.password);
      var created := CreateUser(RegistrationInput(env, body, hashed, code, now));
      if created.Err? {
        return Failure(500, created.error);
      }
      var user := created.value;
      AddUser(newId, user);
      var cookie := VerificationCookie(env, newId, user.email, now);
      events := events + [UserRegistered(user.email, code)];
      return Reply(201, "User registered successfully", [cookie], None);
    }

    /** `registerUser`. */
    method Register(body: RegistrationData, validationError: Option<string>, newId: UserId,
                    r: real, now: int, hash: string -> string)
      returns (reply: Reply)
      requires Valid()
      requires 0.0 <= r < 1.0
      requires newId !in users
      modifies this
      ensures Valid()
      ensures refreshTokens == old(refreshTokens)
      ensures VerifiedKept(old(users), users) && NoneNewlyVerified(old(users), users)
      // the guard chain
      ensures validationError.Some? ==>
        reply == Failure(400, validationError.value) && users == old(users) && events == old(events)
      ensures validationError.None? && Owner(old(users), NormalizeEmail(body.email)).Some?
              && old(users)[Owner(old(users), NormalizeEmail(body.email)).value].isVerified ==>
        reply == Failure(400, "Email already in use") && users == old(users) && events == old(events)
      // only an unverified user with the same email is ever removed, and no other user changes
      ensures forall id :: id in old(users) && id !in users ==>
        !old(users)[id].isVerified && old(users)[id].email == NormalizeEmail(body.email)
      ensures forall id :: id in old(users) && id in users ==> users[id] == old(users)[id]
      ensures forall id :: id in users && id !in old(users) ==> id == newId && reply.status == 201
      // creation
      ensures reply.status == 201 <==>
        && validationError.None?
        && (Owner(old(users), NormalizeEmail(body.email)).None?
            || !old(users)[Owner(old(users), NormalizeEmail(body.email)).value].isVerified)
        && MissingPaths(RegistrationInput(env, body, hash(body.password), CodeOf(r), now)) == []
      ensures reply.status == 201 ==>
        && newId in users
        && CreateUser(RegistrationInput(env, body, hash(body.password), CodeOf(r), now)) == Ok(users[newId])
        && events == old(events) + [UserRegistered(users[newId].email, CodeOf(r))]
        && reply == Reply(201, "User registered successfully",
                          [VerificationCookie(env, newId, users[newId].email, now)], None)
      ensures reply.status == 500 ==>
        reply == Failure(500, ValidationMessage(MissingPaths(RegistrationInput(env, body, hash(body.password), CodeOf(r), now))))
        && events == old(events) && newId !in users
      ensures reply.status == 500 ==>
        users == old(users) - (if Owner(old(users), NormalizeEmail(body.email)).Some?
                               then {Owner(old(users), NormalizeEmail(body.email)).value} else {})
      ensures reply.status in {201, 400, 500}
    {
      if validationError.Some? {
        return Failure(400, validationError.value);
      }
      var taken := ClearUnverified(body.email);
      if taken {
        return Failure(400, "Email already in use");
      }
      reply := CreateAccount(body, newId, r, now, hash);
    }

    /** `verifyAccount`, the only transition that verifies a user. */
    method VerifyAccount(userId: Option<string>, code: string, validationError: Option<string>, now: int)
      returns (reply: Reply)
      requires Valid()
      modifies this
      ensures Valid()
      ensures refreshTokens == old(refreshTokens)
      ensures VerifiedKept(old(users), users)
      ensures forall id :: id in users && users[id].isVerified && !(id in old(users) && old(users)[id].isVerified) ==>
        reply.status == 200 && userId == Some(id)
      // the guard chain, in order
      ensures validationError.Some? ==> reply == Failure(400, validationError.value)
      ensures validationError.None? && (userId.None? || userId.value == "") ==> reply == Failure(400, "No user ID found")
      ensures validationError.None? && userId.Some? && userId.value != "" && userId.value !in old(users) ==>
        reply == Failure(404, "User not found")
      ensures validationError.None? && userId.Some? && userId.value != "" && userId.value in old(users)
              && old(users)[userId.value].isVerified ==>
        reply == Failure(400, "User already verified")
      ensures validationError.None? && userId.Some? && userId.value != "" && userId.value in old(users)
              && !old(users)[userId.value].isVerified
              && (!CodeMatches(old(users)[userId.value].twoFactorCode, code)
                  || Expired(old(users)[userId.value].twoFactorCodeExpiry, now)) ==>
        reply == Failure(400, "Invalid or expired verification code")
      // every failure leaves the store as it was
      ensures reply.status != 200 ==> users == old(users) && events == old(events)
      ensures reply.status == 200 ==>
        && userId.Some? && userId.value in old(users)
        && users == old(users)[userId.value := Verified(old(users)[userId.value])]
        && events == old(events) + [UserVerified(userId.value)]
        && reply == Reply(200, "Account verified successfully", [AuthMiddleware.RevokeVerificationToken(env, None)], None)
    {
      if validationError.Some? {
        return Failure(400, validationError.value);
      }
      if userId.None? || userId.value == "" {
        return Failure(400, "No user ID found");
      }
      var id := userId.value;
      if id !in users {
        return Failure(404, "User not found");
      }
      var user := users[id];
      if user.isVerified {
        return Failure(400, "User already verified");
      }
      if !CodeMatches(user.twoFactorCode, code) || Expired(user.twoFactorCodeExpiry, now) {
        return Failure(400, "Invalid or expired verification code");
      }
      user := user.(isVerified := true);
      user := user.(twoFactorCode := None);
      user := user.(twoFactorCodeExpiry := None);
      users := users[id := user];
      events := events + [UserVerified(id)];
      var cleared := AuthMiddleware.RevokeVerificationToken(env, None);
      return Reply(200, "Account verified successfully", [cleared], None);
    }

    /** `verifyAccountCodeResend`: a fresh code for an unverified user. */
    method VerifyAccountCodeResend(userId: Option<string>, r: real, now: int) returns (reply: Reply)
      requires Valid()
      requires 0.0 <= r < 1.0
      modifies this
      ensures Valid()
      ensures refreshTokens == old(refreshTokens)
      ensures VerifiedKept(old(users), users) && NoneNewlyVerified(old(users), users)
      ensures userId.None? || userId.value !in old(users) ==> reply == Failure(404, "User not found")
      ensures userId.Some? && userId.value in old(users) && old(users)[userId.value].isVerified ==>
        reply == Failure(400, "User already verified")
      ensures reply.status != 200 ==> users == old(users) && events == old(events)
      ensures reply.status == 200 <==> userId.Some? && userId.value in old(users) && !old(users)[userId.value].isVerified
      ensures reply.status == 200 ==>
        && users == old(users)[userId.value := WithCode(old(users)[userId.value], CodeOf(r), now)]
        && events == old(events) + [UserRegistered(old(users)[userId.value].email, CodeOf(r))]
        && reply == Reply(200, "Resend verification code request successful",
                          [VerificationCookie(env, userId.value, old(users)[userId.value].email, now)], None)
    {
      if userId.None? || userId.value !in users {
        return Failure(404, "User not found");
      }
      var id := userId.value;
      var user := users[id];
      if user.isVerified {
        return Failure(400, "User already verified");
      }
      var code := CodeOf(r);
      users := users[id := user.(twoFactorCode := Some(code), twoFactorCodeExpiry := Some(now + 3 * 60 * 1000))];
      var cookie := VerificationCookie(env, id, user.email, now);
      events := events + [UserRegistered(user.email, code)];
      return Reply(200, "Resend verification code request successful", [cookie], None);
    }

    /** `loginUser`: reads the store only; tokens are issued exactly when the
        user exists, is verified and the password verifies. */
    method Login(email: string, password: string, validationError: Option<string>, now: int,
                 verifyPassword: (string, string) -> bool, randomHex: string)
      returns (reply: Reply)
      requires Valid()
      modifies this
      ensures Valid()
      ensures users == old(users) && events == old(events)
      ensures validationError.Some? ==> reply == Failure(400, validationError.value)
      ensures validationError.None? && Owner(users, NormalizeEmail(email)).None? ==>
        reply == Failure(404, "Invalid email or password")
      ensures validationError.None? && Owner(users, NormalizeEmail(email)).Some?
              && !users[Owner(users, NormalizeEmail(email)).value].isVerified ==>
        reply == Failure(400, "Account not verified")
      ensures validationError.None? && Owner(users, NormalizeEmail(email)).Some?
              && users[Owner(users, NormalizeEmail(email)).value].isVerified
              && !verifyPassword(users[Owner(users, NormalizeEmail(email)).value].password, password) ==>
        reply == Failure(401, "Invalid email or password")
      ensures reply.status != 200 ==> refreshTokens == old(refreshTokens)
      ensures reply.status == 200 <==>
        && validationError.None? && Owner(users, NormalizeEmail(email)).Some?
        && users[Owner(users, NormalizeEmail(email)).value].isVerified
        && verifyPassword(users[Owner(users, NormalizeEmail(email)).value].password, password)
      ensures reply.status == 200 ==>
        var id := Owner(users, NormalizeEmail(email)).value;
        var record := RefreshRecord(randomHex, id, now + RefreshLifetimeMs);
        && refreshTokens == old(refreshTokens) + [record]
        && reply == Reply(200, "User logged in successfully",
                          SessionCookies(env, AccessToken(id, users[id]), record, now),
                          Some(Profile(users[id].firstName, users[id].lastName, users[id].email)))
    {
      if validationError.Some? {
        return Failure(400, validationError.value);
      }
      var found := FindByEmail(email);
      if found.None? {
        return Failure(404, "Invalid email or password");
      }
      var id := found.value;
      var user := users[id];
      if !user.isVerified {
        return Failure(400, "Account not verified");
      }
      if !verifyPassword(user.password, password) {
        return Failure(401, "Invalid email or password");
      }
      var access, refresh, cookies := GenerateTokens(id, user, now, randomHex);
      return Reply(200, "User logged in successfully", cookies,
                   Some(Profile(user.firstName, user.lastName, user.email)));
    }

    /** `forgotPasswordUser`: a fresh code for a verified user; an unknown
        and an unverified user get the same message. */
    method ForgotPassword(email: string, validationError: Option<string>, r: real, now: int) returns (reply: Reply)
      requires Valid()
      requires 0.0 <= r < 1.0
      modifies this
      ensures Valid()
      ensures refreshTokens == old(refreshTokens)
      ensures VerifiedKept(old(users), users) && NoneNewlyVerified(old(users), users)
      ensures validationError.Some? ==> reply == Failure(400, validationError.value)
      ensures validationError.None? && Owner(old(users), NormalizeEmail(email)).None? ==>
        reply == Failure(404, "User not found")
      ensures validationError.None? && Owner(old(users), NormalizeEmail(email)).Some?
              && !old(users)[Owner(old(users), NormalizeEmail(email)).value].isVerified ==>
        reply == Failure(400, "User not found")
      ensures reply.status != 200 ==> users == old(users) && events == old(events)
      ensures reply.status == 200 <==>
        validationError.None? && Owner(old(users), NormalizeEmail(email)).Some?
        && old(users)[Owner(old(users), NormalizeEmail(email)).value].isVerified
      ensures reply.status == 200 ==>
        var id := Owner(old(users), NormalizeEmail(email)).value;
        && users == old(users)[id := WithCode(old(users)[id], CodeOf(r), now)]
        && events == old(events) + [PasswordResetRequested(old(users)[id].email, CodeOf(r))]
        && reply == Reply(200, "Forgot password request successful",
                          [VerificationCookie(env, id, old(users)[id].email, now)], None)
    {
      if validationError.Some? {
        return Failure(400, validationError.value);
      }
      var found := FindByEmail(email);
      if found.None? {
        return Failure(404, "User not found");
      }
      var id := found.value;
      var user := users[id];
      if !user.isVerified {
        return Failure(400, "User not found");
      }
      var code := CodeOf(r);
      users := users[id := user.(twoFactorCode := Some(code), twoFactorCodeExpiry := Some(now + 3 * 60 * 1000))];
      var cookie := VerificationCookie(env, id, user.email, now);
      events := events + [PasswordResetRequested(user.email, code)];
      return Reply(200, "Forgot password request successful", [cookie], None);
    }

    /** `verifyResetPasswordCodeResend`: a fresh code for a verified user. */
    method VerifyResetPasswordCodeResend(userId: Option<string>, r: real, now: int) returns (reply: Reply)
      requires Valid()
      requires 0.0 <= r < 1.0
      modifies this
      ensures Valid()
      ensures refreshTokens == old(refreshTokens)
      ensures VerifiedKept(old(users), users) && NoneNewlyVerified(old(users), users)
      ensures userId.None? || userId.value !in old(users) ==> reply == Failure(404, "User not found")
      ensures userId.Some? && userId.value in old(users) && !old(users)[userId.value].isVerified ==>
        reply == Failure(400, "User not verified")
      ensures reply.status != 200 ==> users == old(users) && events == old(events)
      ensures reply.status == 200 <==> userId.Some? && userId.value in old(users) && old(users)[userId.value].isVerified
      ensures reply.status == 200 ==>
        && users == old(users)[userId.value := WithCode(old(users)[userId.value], CodeOf(r), now)]
        && events == old(events) + [PasswordResetRequested(old(users)[userId.value].email, CodeOf(r))]
        && reply == Reply(200, "Resend verification code request successful",
                          [VerificationCookie(env, userId.value, old(users)[userId.value].email, now)], None)
    {
      if userId.None? || userId.value !in users {
        return Failure(404, "User not found");
      }
      var id := userId.value;
      var user := users[id];
      if !user.isVerified {
        return Failure(400, "User not verified");
      }
      var code := CodeOf(r);
      user := user.(twoFactorCode := Some(code));
      user := user.(twoFactorCodeExpiry := Some(now + 3 * 60 * 1000));
      users := users[id := user];
      var cookie := VerificationCookie(env, id, user.email, now);
      events := events + [PasswordResetRequested(user.email, code)];
      return Reply(200, "Resend verification code request successful", [cookie], None);
    }

    /** `verifyResetPassword`: checks the code without clearing it, then swaps
        the verification cookie for a reset-password cookie. */
    method VerifyResetPassword(userId: Option<string>, code: string, validationError: Option<string>, now: int)
      returns (reply: Reply)
      requires Valid()
      ensures validationError.Some? ==> reply == Failure(400, validationError.value)
      ensures validationError.None? && (userId.None? || userId.value !in users) ==> reply == Failure(404, "User not found")
      ensures validationError.None? && userId.Some? && userId.value in users && !users[userId.value].isVerified ==>
        reply == Failure(400, "User not verified")
      ensures validationError.None? && userId.Some? && userId.value in users && users[userId.value].isVerified
              && (!CodeMatches(users[userId.value].twoFactorCode, code)
                  || Expired(users[userId.value].twoFactorCodeExpiry, now)) ==>
        reply == Failure(400, "Invalid or expired verification code")
      ensures reply.status == 200 <==>
        && validationError.None? && userId.Some? && userId.value in users && users[userId.value].isVerified
        && CodeMatches(users[userId.value].twoFactorCode, code) && !Expired(users[userId.value].twoFactorCodeExpiry, now)
      ensures reply.status == 200 ==>
        reply == Reply(200, "Account verified successfully, ready to reset password",
                       [AuthMiddleware.RevokeVerificationToken(env, None),
                        ResetCookie(env, userId.value, users[userId.value], now)], None)
    {
      if validationError.Some? {
        return Failure(400, validationError.value);
      }
      if userId.None? || userId.value !in users {
        return Failure(404, "User not found");
      }
      var id := userId.value;
      var user := users[id];
      if !user.isVerified {
        return Failure(400, "User not verified");
      }
      if !CodeMatches(user.twoFactorCode, code) || Expired(user.twoFactorCodeExpiry, now) {
        return Failure(400, "Invalid or expired verification code");
      }
      var cleared := AuthMiddleware.RevokeVerificationToken(env, None);
      var cookie := ResetCookie(env, id, user, now);
      return Reply(200, "Account verified successfully, ready to reset password", [cleared, cookie], None);
    }

    /** `resetPasswordUser`: replaces the password by its hash and clears the
        code; clears the reset-password cookie. */
    method ResetPassword(userId: Option<string>, newPassword: string, validationError: Option<string>,
                         hash: string -> string)
      returns (reply: Reply)
      requires Valid()
      modifies this
      ensures Valid()
      ensures refreshTokens == old(refreshTokens)
      ensures VerifiedKept(old(users), users) && NoneNewlyVerified(old(users), users)
      ensures validationError.Some? ==> reply == Failure(400, validationError.value)
      ensures validationError.None? && (userId.None? || userId.value !in old(users)) ==> reply == Failure(404, "User not found")
      ensures validationError.None? && userId.Some? && userId.value in old(users) && !old(users)[userId.value].isVerified ==>
        reply == Failure(400, "User not found")
      ensures reply.status != 200 ==> users == old(users) && events == old(events)
      ensures reply.status == 200 <==>
        validationError.None? && userId.Some? && userId.value in old(users) && old(users)[userId.value].isVerified
      ensures reply.status == 200 ==>
        && users == old(users)[userId.value := old(users)[userId.value].(
             password := hash(newPassword), twoFactorCode := None, twoFactorCodeExpiry := None)]
        && users[userId.value].isVerified && users[userId.value].email == old(users)[userId.value].email
        && events == old(events) + [PasswordResetSuccessful(old(users)[userId.value].email)]
        && reply == Reply(200, "Password reset successful",
                          [AuthMiddleware.RevokeVerificationToken(env, Some("resetPasswordToken"))], None)
    {
      if validationError.Some? {
        return Failure(400, validationError.value);
      }
      if userId.None? || userId.value !in users {
        return Failure(404, "User not found");
      }
      var id := userId.value;
      var user := users[id];
      if !user.isVerified {
        return Failure(400, "User not found");
      }
      var hashed := hash(newPassword);
      users := users[id := user.(password := hashed, twoFactorCode := None, twoFactorCodeExpiry := None)];
      events := events + [PasswordResetSuccessful(user.email)];
      var cleared := AuthMiddleware.RevokeVerificationToken(env, Some("resetPasswordToken"));
      return Reply(200, "Password reset successful", [cleared], None);
    }

    /** Verifying an account twice with the same code: once the first call
        succeeds, the second is refused as already verified and changes nothing. */
    method VerifyTwice(userId: Option<string>, code: string, now: int) returns (first: Reply, second: Reply)
      requires Valid()
      modifies this
      ensures first.status == 200 ==> second == Failure(400, "User already verified")
      ensures first.status == 200 ==>
        userId.Some? && userId.value in old(users)
        && users == old(users)[userId.value := Verified(old(users)[userId.value])]
    {
      first := VerifyAccount(userId, code, None, now);
      ghost var afterFirst := users;
      second := VerifyAccount(userId, code, None, now);
      if first.status == 200 {
        assert users == afterFirst;
      }
    }
  }
}
