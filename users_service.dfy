/** `UsersService`: sign-up, login, email verification and profile updates over
    the user repository. Each method is proved to leave the collection in the
    state, and to answer with the value, that the functions of `Accounts`
    describe. Mail delivery and token signing are not part of the model. */
module UsersServices {
  import opened Common
  import opened Accounts
  import opened UserStore

  /** The sign-up body, which `create` rewrites in place before storing it. */
  class CreateUserForm {
    var name: string
    var email: string
    var password: string
    var userType: UserType
    var secretToken: Option<string>
    var isVerified: Option<bool>

    constructor(name: string, email: string, password: string, userType: UserType,
                secretToken: Option<string>, isVerified: Option<bool>)
      ensures this.name == name && this.email == email && this.password == password
      ensures this.userType == userType && this.secretToken == secretToken && this.isVerified == isVerified
    {
      this.name, this.email, this.password := name, email, password;
      this.userType, this.secretToken, this.isVerified := userType, secretToken, isVerified;
    }
  }

  class UsersService {
    const userDb: UserRepository
    /** The configured `ADMIN_SECRET_TOKEN`, absent when unset. */
    const adminSecret: Option<string>

    constructor(userDb: UserRepository, adminSecret: Option<string>)
      ensures this.userDb == userDb && this.adminSecret == adminSecret
    {
      this.userDb := userDb;
      this.adminSecret := adminSecret;
    }

    /** `create(createUserDto)`: `hashed` is the hash of the body's password, `r`
        the random draw, `now` the clock and `newId` the id the database gives
        the user. Answers with the stored email. */
    method Create(form: CreateUserForm, hashed: string, r: real, now: int, newId: Id) returns (res: Result<string>)
      requires 0.0 <= r < 1.0
      modifies form, userDb
      ensures form.password == hashed && form.isVerified == Some(SignupVerified(form.userType))
      ensures form.name == old(form.name) && form.email == old(form.email)
      ensures form.userType == old(form.userType) && form.secretToken == old(form.secretToken)
      ensures var c := CreateUser(old(userDb.users), Signup(form.name, form.email, form.userType, form.secretToken),
                                  adminSecret, hashed, r, now, newId);
        && (c.Err? ==> res == Err(c.error) && userDb.users == old(userDb.users))
        && (c.Ok? ==> res == Ok(form.email) && userDb.users == c.value)
    {
      form.password := hashed;
      if form.userType == Admin {
        form.isVerified := Some(true);
      }
      if form.userType == Admin && form.secretToken != adminSecret {
        return Err(InternalServerError);
      } else if form.userType == Customer {
        form.isVerified := Some(false);
      }
      var existing := userDb.FindByEmail(form.email);
      if existing.Some? {
        return Err(Conflict);
      }
      var otp := Otp(r);
      var expiry := now + OtpLifetime;
      userDb.Create(User(newId, form.name, form.email, form.password, form.userType,
                         form.isVerified == Some(true), Some(OtpText(otp)), Some(expiry)));
      res := Ok(form.email);
    }

    /** `login(loginDto)`: `compare` stands for the password-hash comparison. */
    method Login(email: string, password: string, compare: (string, string) -> bool) returns (r: Result<User>)
      ensures r == Accounts.Login(userDb.users, email, password, compare)
    {
      var user := userDb.FindByEmail(email);
      if user.None? {
        return Err(Unauthorized);
      }
      if !user.value.isVerified {
        return Err(Unauthorized);
      }
      if !compare(password, user.value.password) {
        return Err(Unauthorized);
      }
      r := Ok(user.value);
    }

    /** `verifyEmail(otp, email)` at time `now`. */
    method VerifyEmail(otp: string, email: string, now: int) returns (r: Result<()>)
      modifies userDb
      ensures var v := Accounts.VerifyEmail(old(userDb.users), otp, email, now);
        && (v.Err? ==> r == Err(v.error) && userDb.users == old(userDb.users))
        && (v.Ok? ==> r == Ok(()) && userDb.users == v.value)
    {
      var user := userDb.FindByEmail(email);
      if user.None? {
        return Err(Unauthorized);
      }
      if user.value.otp != Some(otp) {
        return Err(Unauthorized);
      }
      if Expired(user.value, now) {
        return Err(Unauthorized);
      }
      userDb.SetVerified(email);
      r := Ok(());
    }

    /** `sendOtpEmail(email)`: `r` is the random draw and `now` the clock.
        Answers with the email the password goes to. */
    method SendOtpEmail(email: string, r: real, now: int) returns (res: Result<string>)
      requires 0.0 <= r < 1.0
      modifies userDb
      ensures var o := SendOtp(old(userDb.users), email, r, now);
        && (o.Err? ==> res == Err(o.error) && userDb.users == old(userDb.users))
        && (o.Ok? ==> res == Ok(email) && userDb.users == o.value)
    {
      var user := userDb.FindByEmail(email);
      if user.None? {
        return Err(Unauthorized);
      }
      if user.value.isVerified {
        return Err(InternalServerError);
      }
      var otp := Otp(r);
      userDb.SetOtp(email, OtpText(otp), now + OtpLifetime);
      res := Ok(user.value.email);
    }

    /** `updatePasswordOrName(id, updateUserDto)`: an absent field is "",
        `compare` the hash comparison and `hashed` the hash of the new password.
        Answers with the user's name and email as stored afterwards. */
    method UpdatePasswordOrName(id: Id, oldPassword: string, newPassword: string, name: string,
                                compare: (string, string) -> bool, hashed: string) returns (r: Result<(string, string)>)
      modifies userDb
      ensures var u := UpdateProfile(old(userDb.users), id, oldPassword, newPassword, name, compare, hashed);
        && (u.Err? ==> r == Err(u.error) && userDb.users == old(userDb.users))
        && (u.Ok? ==>
              var i := IdIndex(old(userDb.users), id).value;
              && userDb.users == u.value
              && r == Ok((u.value[i].name, u.value[i].email)))
    {
      if newPassword == "" && name == "" {
        return Err(BadRequest);
      }
      var user := userDb.FindById(id);
      if user.None? {
        return Err(Unauthorized);
      }
      ghost var i := IdIndex(userDb.users, id).value;
      if newPassword != "" {
        if oldPassword == "" {
          return Err(BadRequest);
        }
        if !compare(oldPassword, user.value.password) {
          return Err(Unauthorized);
        }
        userDb.SetPassword(user.value.id, hashed);
      }
      if name != "" {
        userDb.SetName(id, name);
      }
      UpdateProfileOutcome(old(userDb.users), id, oldPassword, newPassword, name, compare, hashed);
      var updated := userDb.FindById(id);
      var updatedName := if updated.Some? && updated.value.name != "" then updated.value.name else user.value.name;
      var updatedEmail := if updated.Some? && updated.value.email != "" then updated.value.email else user.value.email;
      r := Ok((updatedName, updatedEmail));
    }
  }
}
