/** The account rules of `UsersService` as functions over the user collection:
    sign-up with its one-time password, the login gate, email verification, a
    fresh one-time password, and the name and password update. The verification
    flow is a small state machine on `isVerified`, `otp` and `otpExpireTime`.
    `UsersService` in users_service.dfy is proved against these functions. */
module Accounts {
  import opened Common

  datatype UserType = Admin | Customer

  /** A stored user; `password` is the stored hash. `otp` and `otpExpireTime`
      default to null, and the expiry is a time in milliseconds. */
  datatype User = User(
    id: Id,
    name: string,
    email: string,
    password: string,
    userType: UserType,
    isVerified: bool,
    otp: Option<string>,
    otpExpireTime: Option<int>)

  /** The fields of a sign-up body the stored user is made of, with the admin
      secret when one was sent. */
  datatype Signup = Signup(
    name: string,
    email: string,
    userType: UserType,
    secretToken: Option<string>)

  /** Ten minutes, the lifetime of a one-time password, in milliseconds. */
  const OtpLifetime := 10 * 60 * 1000

  // ================================================================ lookups

  /** `findOne({ email })` */
  function EmailIndex(us: seq<User>, email: string): (r: Option<nat>)
    ensures r.Some? ==> r.value < |us| && us[r.value].email == email
    ensures r.Some? ==> forall k :: 0 <= k < r.value ==> us[k].email != email
    ensures r.None? <==> forall k :: 0 <= k < |us| ==> us[k].email != email
  {
    FirstIndex(us, (u: User) => u.email == email)
  }

  /** `findOne({ _id: id })` */
  function IdIndex(us: seq<User>, id: Id): (r: Option<nat>)
    ensures r.Some? ==> r.value < |us| && us[r.value].id == id
    ensures r.None? <==> forall k :: 0 <= k < |us| ==> us[k].id != id
  {
    FirstIndex(us, (u: User) => u.id == id)
  }

  /** The schema's `unique` index on `email`. */
  predicate UniqueEmails(us: seq<User>) {
    forall i, j :: 0 <= i < j < |us| ==> us[i].email != us[j].email
  }

  // ===================================================== one-time passwords

  /** `Math.floor(Math.random() * 900000) + 100000` for the draw `r`. */
  function Otp(r: real): (n: nat)
    requires 0.0 <= r < 1.0
    ensures 100000 <= n <= 999999
  {
    (r * 900000.0).Floor + 100000
  }

  /** The text the schema stores: the number cast to a string. */
  function OtpText(n: nat): string {
    DecimalString(n)
  }

  function DigitValue(c: char): nat {
    if '0' <= c <= '9' then (c - '0') as nat else 0
  }

  /** Reading a decimal text back as a number. */
  function DecimalValue(s: string): nat {
    if |s| == 0 then 0 else DecimalValue(s[..|s| - 1]) * 10 + DigitValue(s[|s| - 1])
  }

  lemma DigitRoundTrip(d: nat)
    requires d < 10
    ensures DigitValue(Digit(d)) == d
  {
    var digits := ['0', '1', '2', '3', '4', '5', '6', '7', '8', '9'];
    assert Digit(d) == digits[d];
  }

  /** The stored text reads back as the number drawn, so two different passwords
      never share a text. */
  lemma {:induction false} OtpTextRoundTrip(n: nat)
    ensures DecimalValue(OtpText(n)) == n
  {
    var s := DecimalString(n);
    if n < 10 {
      DigitRoundTrip(n);
      assert s[..|s| - 1] == [];
    } else {
      OtpTextRoundTrip(n / 10);
      DigitRoundTrip(n % 10);
      assert s[..|s| - 1] == DecimalString(n / 10);
    }
  }

  function Pow10(k: nat): nat {
    if k == 0 then 1 else 10 * Pow10(k - 1)
  }

  /** A number of `k + 1` digits renders as `k + 1` characters. */
  lemma {:induction false} DecimalLength(n: nat, k: nat)
    requires Pow10(k) <= n < Pow10(k + 1)
    ensures |DecimalString(n)| == k + 1
  {
    if k > 0 {
      DecimalLength(n / 10, k - 1);
    }
  }

  /** Every one-time password is six decimal digits. */
  lemma OtpTextIsSixDigits(r: real)
    requires 0.0 <= r < 1.0
    ensures var t := OtpText(Otp(r));
      |t| == 6 && forall i :: 0 <= i < 6 ==> '0' <= t[i] <= '9'
  {
    assert Pow10(5) == 100000 && Pow10(6) == 1000000;
    DecimalLength(Otp(r), 5);
  }

  /** The JavaScript comparison `otpExpireTime < new Date()`: a null expiry
      compares as 0. */
  predicate Expired(u: User, now: int) {
    (if u.otpExpireTime.Some? then u.otpExpireTime.value else 0) < now
  }

  // ================================================================ writes

  /** `updateVerify({ email }, { $set: { isVerified: true } })` */
  function WithVerified(us: seq<User>, email: string): seq<User> {
    match EmailIndex(us, email)
    case None => us
    case Some(i) => us[i := us[i].(isVerified := true)]
  }

  /** `updateVerify({ email }, { $set: { otp, otpExpireTime } })` */
  function WithOtp(us: seq<User>, email: string, otp: string, expiry: int): seq<User> {
    match EmailIndex(us, email)
    case None => us
    case Some(i) => us[i := us[i].(otp := Some(otp), otpExpireTime := Some(expiry))]
  }

  /** `updateVerify({ _id: id }, { $set: { password } })` */
  function WithPassword(us: seq<User>, id: Id, password: string): seq<User> {
    match IdIndex(us, id)
    case None => us
    case Some(i) => us[i := us[i].(password := password)]
  }

  /** `updateVerify({ _id: id }, { $set: { name } })` */
  function WithName(us: seq<User>, id: Id, name: string): seq<User> {
    match IdIndex(us, id)
    case None => us
    case Some(i) => us[i := us[i].(name := name)]
  }

  // ================================================================ sign-up

  /** The `isVerified` flag `create` leaves on the body: set for an admin, cleared
      for a customer. */
  function SignupVerified(t: UserType): bool {
    t == Admin
  }

  /** `create(dto)` (users.service.ts lines 30-102): `hashed` is the hash of the
      password, `configured` the configured admin secret, `r` the random draw,
      `now` the clock and `newId` the id the database gives the user. */
  function CreateUser(us: seq<User>, s: Signup, configured: Option<string>, hashed: string,
                      r: real, now: int, newId: Id): Result<seq<User>>
    requires 0.0 <= r < 1.0
  {
    if s.userType == Admin && s.secretToken != configured then Err(InternalServerError)
    else if EmailIndex(us, s.email).Some? then Err(Conflict)
    else Ok(us + [User(newId, s.name, s.email, hashed, s.userType, SignupVerified(s.userType),
                       Some(OtpText(Otp(r))), Some(now + OtpLifetime))])
  }

  /** An admin without the configured secret is refused with InternalServerError;
      a taken email with Conflict, and nothing is stored. Every other sign-up is
      accepted, and then one user is appended: an admin verified, a customer not, holding the hash, a six-digit
      one-time password and an expiry ten minutes ahead; emails stay unique. */
  lemma CreateUserOutcome(us: seq<User>, s: Signup, configured: Option<string>, hashed: string,
                          r: real, now: int, newId: Id)
    requires 0.0 <= r < 1.0
    ensures var c := CreateUser(us, s, configured, hashed, r, now, newId);
      && (c == Err(InternalServerError) <==> s.userType == Admin && s.secretToken != configured)
      && (c == Err(Conflict) <==>
            (s.userType == Customer || s.secretToken == configured)
            && exists k :: 0 <= k < |us| && us[k].email == s.email)
      && (c.Ok? <==>
            (s.userType == Customer || s.secretToken == configured)
            && forall k :: 0 <= k < |us| ==> us[k].email != s.email)
      && (c.Ok? ==>
            && |c.value| == |us| + 1 && c.value[..|us|] == us
            && var u := c.value[|us|];
            && u.id == newId && u.name == s.name
            && u.email == s.email && u.password == hashed && u.userType == s.userType
            && (u.isVerified <==> s.userType == Admin)
            && u.otp.Some? && 100000 <= DecimalValue(u.otp.value) <= 999999 && |u.otp.value| == 6
            && u.otpExpireTime == Some(now + OtpLifetime)
            && (UniqueEmails(us) ==> UniqueEmails(c.value)))
  {
    var c := CreateUser(us, s, configured, hashed, r, now, newId);
    if c.Ok? {
      assert c.value[..|us|] == us;
      OtpTextRoundTrip(Otp(r));
      OtpTextIsSixDigits(r);
    }
  }

  // ================================================================== login

  /** `login(dto)` (users.service.ts lines 104-153): `compare` stands for the
      password-hash comparison. The token removal touches no modelled field. */
  function Login(us: seq<User>, email: string, password: string, compare: (string, string) -> bool): Result<User> {
    match EmailIndex(us, email)
    case None => Err(Unauthorized)
    case Some(i) =>
      if !us[i].isVerified then Err(Unauthorized)
      else if !compare(password, us[i].password) then Err(Unauthorized)
      else Ok(us[i])
  }

  /** A login succeeds exactly for the user of that email when the account is
      verified and the password matches its hash; every refusal is Unauthorized. */
  lemma LoginOutcome(us: seq<User>, email: string, password: string, compare: (string, string) -> bool)
    ensures var l := Login(us, email, password, compare);
      && (l.Err? ==> l.error == Unauthorized)
      && (l.Ok? <==>
            exists i :: 0 <= i < |us| && us[i].email == email
              && (forall k :: 0 <= k < i ==> us[k].email != email)
              && us[i].isVerified && compare(password, us[i].password))
      && (l.Ok? ==> l.value.email == email && l.value.isVerified)
  {
    match EmailIndex(us, email)
    case None =>
    case Some(i) =>
      forall j | 0 <= j < |us| && us[j].email == email && (forall k :: 0 <= k < j ==> us[k].email != email)
        ensures j == i
      {
      }
  }

  // ======================================================== verification

  /** `verifyEmail(otp, email)` (users.service.ts lines 155-183). */
  function VerifyEmail(us: seq<User>, otp: string, email: string, now: int): Result<seq<User>> {
    match EmailIndex(us, email)
    case None => Err(Unauthorized)
    case Some(i) =>
      if us[i].otp != Some(otp) then Err(Unauthorized)
      else if Expired(us[i], now) then Err(Unauthorized)
      else Ok(WithVerified(us, email))
  }

  /** Verification succeeds only for a known email whose stored one-time password
      is the one given and has not expired; every refusal is Unauthorized. On
      success that user alone changes, and only to become verified. */
  lemma VerifyEmailOutcome(us: seq<User>, otp: string, email: string, now: int)
    ensures var v := VerifyEmail(us, otp, email, now);
      && (v.Err? ==> v.error == Unauthorized)
      && (v.Ok? <==>
            EmailIndex(us, email).Some?
            && us[EmailIndex(us, email).value].otp == Some(otp)
            && !Expired(us[EmailIndex(us, email).value], now))
      && (v.Ok? ==>
            var i := EmailIndex(us, email).value;
            && |v.value| == |us|
            && v.value[i] == us[i].(isVerified := true)
            && (forall k :: 0 <= k < |us| && k != i ==> v.value[k] == us[k]))
  {
  }

  /** `sendOtpEmail(email)` (users.service.ts lines 185-234): a fresh one-time
      password and expiry for an unverified user. Sending the mail is not part of
      the model. */
  function SendOtp(us: seq<User>, email: string, r: real, now: int): Result<seq<User>>
    requires 0.0 <= r < 1.0
  {
    match EmailIndex(us, email)
    case None => Err(Unauthorized)
    case Some(i) =>
      if us[i].isVerified then Err(InternalServerError)
      else Ok(WithOtp(us, email, OtpText(Otp(r)), now + OtpLifetime))
  }

  /** An unknown email is Unauthorized and a verified user is refused with
      InternalServerError, and neither writes anything. Every unverified user is
      sent one, and then that user alone changes, to a six-digit one-time password valid for ten minutes. */
  lemma SendOtpOutcome(us: seq<User>, email: string, r: real, now: int)
    requires 0.0 <= r < 1.0
    ensures var o := SendOtp(us, email, r, now);
      && (o == Err(Unauthorized) <==> EmailIndex(us, email).None?)
      && (o == Err(InternalServerError) <==> EmailIndex(us, email).Some? && us[EmailIndex(us, email).value].isVerified)
      && (o.Ok? <==> EmailIndex(us, email).Some? && !us[EmailIndex(us, email).value].isVerified)
      && (o.Ok? ==>
            var i := EmailIndex(us, email).value;
            && |o.value| == |us|
            && (forall k :: 0 <= k < |us| && k != i ==> o.value[k] == us[k])
            && o.value[i] == us[i].(otp := o.value[i].otp, otpExpireTime := o.value[i].otpExpireTime)
            && o.value[i].otp.Some? && |o.value[i].otp.value| == 6
            && 100000 <= DecimalValue(o.value[i].otp.value) <= 999999
            && o.value[i].otpExpireTime == Some(now + OtpLifetime))
  {
    if SendOtp(us, email, r, now).Ok? {
      OtpTextRoundTrip(Otp(r));
      OtpTextIsSixDigits(r);
    }
  }

  /** Collections whose emails agree position by position find an email at the
      same place. */
  lemma SameEmailIndex(us: seq<User>, vs: seq<User>, email: string)
    requires |us| == |vs| && forall k :: 0 <= k < |us| ==> us[k].email == vs[k].email
    ensures EmailIndex(us, email) == EmailIndex(vs, email)
  {
    var a, b := EmailIndex(us, email), EmailIndex(vs, email);
    if a.Some? && b.Some? {
      assert !(a.value < b.value) && !(b.value < a.value);
    }
  }

  /** The one-time password just sent verifies the account at any time up to ten
      minutes later; once verified, no new password is sent. */
  lemma SendOtpThenVerify(us: seq<User>, email: string, r: real, now: int, later: int)
    requires 0.0 <= r < 1.0
    requires SendOtp(us, email, r, now).Ok?
    requires later <= now + OtpLifetime
    ensures var sent := SendOtp(us, email, r, now).value;
      var v := VerifyEmail(sent, OtpText(Otp(r)), email, later);
      && v.Ok?
      && v.value[EmailIndex(us, email).value].isVerified
      && SendOtp(v.value, email, r, later) == Err(InternalServerError)
  {
    var i := EmailIndex(us, email).value;
    var sent := SendOtp(us, email, r, now).value;
    SameEmailIndex(us, sent, email);
    var v := VerifyEmail(sent, OtpText(Otp(r)), email, later).value;
    SameEmailIndex(sent, v, email);
  }

  // ====================================================== profile updates

  /** `updatePasswordOrName(id, dto)` (users.service.ts lines 311-365): an absent
      field is "", `compare` the hash comparison and `hashed` the hash of the new
      password. The password is written before the name. */
  function UpdateProfile(us: seq<User>, id: Id, oldPassword: string, newPassword: string, name: string,
                         compare: (string, string) -> bool, hashed: string): Result<seq<User>>
  {
    if newPassword == "" && name == "" then Err(BadRequest)
    else
      match IdIndex(us, id)
      case None => Err(Unauthorized)
      case Some(i) =>
        if newPassword != "" && oldPassword == "" then Err(BadRequest)
        else if newPassword != "" && !compare(oldPassword, us[i].password) then Err(Unauthorized)
        else
          var afterPassword := if newPassword != "" then WithPassword(us, id, hashed) else us;
          Ok(if name != "" then WithName(afterPassword, id, name) else afterPassword)
  }

  /** A request with neither a new password nor a name, or with a new password
      but no old one, is BadRequest; an unknown user or a wrong old password is
      Unauthorized. Every other request is accepted, and then that user alone
      changes: the password to the new
      hash when one was given, the name when one was given, nothing else. */
  lemma UpdateProfileOutcome(us: seq<User>, id: Id, oldPassword: string, newPassword: string, name: string,
                             compare: (string, string) -> bool, hashed: string)
    ensures var u := UpdateProfile(us, id, oldPassword, newPassword, name, compare, hashed);
      && (u == Err(BadRequest) <==>
            (newPassword == "" && name == "")
            || (IdIndex(us, id).Some? && newPassword != "" && oldPassword == ""))
      && (u == Err(Unauthorized) <==>
            (newPassword != "" || name != "")
            && (IdIndex(us, id).None?
                || (newPassword != "" && oldPassword != "" && !compare(oldPassword, us[IdIndex(us, id).value].password))))
      && (u.Ok? <==>
            (newPassword != "" || name != "") && IdIndex(us, id).Some?
            && (newPassword != "" ==> oldPassword != "" && compare(oldPassword, us[IdIndex(us, id).value].password)))
      && (u.Ok? ==>
            var i := IdIndex(us, id).value;
            && |u.value| == |us|
            && (forall k :: 0 <= k < |us| && k != i ==> u.value[k] == us[k])
            && u.value[i] == us[i].(password := if newPassword != "" then hashed else us[i].password,
                                    name := if name != "" then name else us[i].name)
            && (newPassword != "" ==> compare(oldPassword, us[i].password)))
  {
    match IdIndex(us, id)
    case None =>
    case Some(i) =>
      if newPassword != "" {
        var p := WithPassword(us, id, hashed);
        assert IdIndex(p, id) == Some(i) by {
          assert forall k :: 0 <= k < i ==> p[k] == us[k];
        }
      }
  }

  /** No operation changes an email, so a collection with unique emails keeps
      them. */
  lemma UpdatesKeepEmails(us: seq<User>, email: string, id: Id, s: string, t: int)
    requires UniqueEmails(us)
    ensures UniqueEmails(WithVerified(us, email))
    ensures UniqueEmails(WithOtp(us, email, s, t))
    ensures UniqueEmails(WithPassword(us, id, s))
    ensures UniqueEmails(WithName(us, id, s))
  {
    SameEmailsStayUnique(us, WithVerified(us, email));
    SameEmailsStayUnique(us, WithOtp(us, email, s, t));
    SameEmailsStayUnique(us, WithPassword(us, id, s));
    SameEmailsStayUnique(us, WithName(us, id, s));
  }

  /** Emails unchanged position by position stay unique. */
  lemma SameEmailsStayUnique(us: seq<User>, vs: seq<User>)
    requires UniqueEmails(us)
    requires |vs| == |us| && forall k :: 0 <= k < |us| ==> vs[k].email == us[k].email
    ensures UniqueEmails(vs)
  {
  }
}
