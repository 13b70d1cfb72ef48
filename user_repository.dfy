/** `UserRepository`: the user collection and the one request per step the users
    service makes on it. */
module UserStore {
  import opened Common
  import opened Accounts

  class UserRepository {
    var users: seq<User>

    constructor(users: seq<User>)
      ensures this.users == users
    {
      this.users := users;
    }

    /** `findOne({ email })` */
    method FindByEmail(email: string) returns (r: Option<User>)
      ensures r.None? <==> EmailIndex(users, email).None?
      ensures r.Some? ==> r.value == users[EmailIndex(users, email).value]
    {
      match EmailIndex(users, email)
      case None => r := None;
      case Some(i) => r := Some(users[i]);
    }

    /** `findOne({ _id: id })` */
    method FindById(id: Id) returns (r: Option<User>)
      ensures r.None? <==> IdIndex(users, id).None?
      ensures r.Some? ==> r.value == users[IdIndex(users, id).value]
    {
      match IdIndex(users, id)
      case None => r := None;
      case Some(i) => r := Some(users[i]);
    }

    /** `create(user)` */
    method Create(u: User)
      modifies this
      ensures users == old(users) + [u]
    {
      users := users + [u];
    }

    /** `updateVerify({ email }, { $set: { isVerified: true } })` */
    method SetVerified(email: string)
      modifies this
      ensures users == WithVerified(old(users), email)
    {
      users := WithVerified(users, email);
    }

    /** `updateVerify({ email }, { $set: { otp, otpExpireTime } })` */
    method SetOtp(email: string, otp: string, expiry: int)
      modifies this
      ensures users == WithOtp(old(users), email, otp, expiry)
    {
      users := WithOtp(users, email, otp, expiry);
    }

    /** `updateVerify({ _id: id }, { $set: { password } })` */
    method SetPassword(id: Id, password: string)
      modifies this
      ensures users == WithPassword(old(users), id, password)
    {
      users := WithPassword(users, id, password);
    }

    /** `updateVerify({ _id: id }, { $set: { name } })` */
    method SetName(id: Id, name: string)
      modifies this
      ensures users == WithName(old(users), id, name)
    {
      users := WithName(users, id, name);
    }
  }
}
