/** The `POST /login` handler (src/routes/auth.js:9-32): its decision chain
    from the request body to a reply. The user lookups by phone and by email
    (src/models/users.js:20-30) and `bcrypt.compare` are oracles; an oracle
    that throws gives the 500 reply with the error's message. */
module Login {
  import opened Values

  /** `usersModel.findByPhone` / `findByEmail`: the first matching row or
      null, or the message of the error the query throws. */
  type Lookup = Value -> Result<Option<Record>>

  /** `bcrypt.compare(password, hash)`. */
  type Compare = (Value, Value) -> Result<bool>

  /** The reply: an error status with its message, or 200 with the user. */
  datatype LoginReply = Refused(status: nat, error: string) | LoggedIn(user: Record)

  const CredentialsRequired := "phone or email and password are required"
  const UserNotFound := "user not found"
  const UserInactive := "user is inactive"
  const InvalidCredentials := "invalid credentials"

  /** `const { password_hash, ...safeUser } = user`: the row without its
      `password_hash` entry, the other entries in their order. */
  function RemoveKey(r: Record, k: string): (s: Record)
    ensures |s| <= |r|
    ensures forall i :: 0 <= i < |s| ==> s[i].0 != k && s[i] in r
  {
    if r == [] then []
    else if r[0].0 == k then RemoveKey(r[1..], k)
    else [r[0]] + RemoveKey(r[1..], k)
  }

  /** Lines 16-18: by phone when a phone is given, then by email when that
      found no one and an email is given. */
  function FindUser(phone: Value, email: Value, byPhone: Lookup, byEmail: Lookup): (r: Result<Option<Record>>)
    ensures !Truthy(phone) && !Truthy(email) ==> r == Ok(None)
    ensures Truthy(phone) && (byPhone(phone).Err? || byPhone(phone).value.Some?) ==> r == byPhone(phone)
    ensures r.Ok? && r.value.Some? ==> (Truthy(phone) && r == byPhone(phone)) || (Truthy(email) && r == byEmail(email))
  {
    var first := if Truthy(phone) then byPhone(phone) else Ok(None);
    if first.Err? then first
    else if first.value.None? && Truthy(email) then byEmail(email)
    else first
  }

  /** `user.password_hash || ''`. */
  function HashOf(user: Record): Value
  {
    if Truthy(Get(user, "password_hash")) then Get(user, "password_hash") else Str("")
  }

  /** The fields read from `req.body || {}`. */
  function Field(body: Option<Record>, k: string): Value
  {
    if body.Some? then Get(body.value, k) else Undefined
  }

  predicate HasCredentials(body: Option<Record>)
  {
    (Truthy(Field(body, "phone")) || Truthy(Field(body, "email"))) && Truthy(Field(body, "password"))
  }

  /** The handler. */
  function Login(body: Option<Record>, byPhone: Lookup, byEmail: Lookup, compare: Compare): (reply: LoginReply)
    ensures reply.Refused? ==> reply.status in {400, 401, 403, 404, 500}
    ensures reply.LoggedIn? ==> forall i :: 0 <= i < |reply.user| ==> reply.user[i].0 != "password_hash"
  {
    if !HasCredentials(body) then Refused(400, CredentialsRequired)
    else
      match FindUser(Field(body, "phone"), Field(body, "email"), byPhone, byEmail)
      case Err(m) => Refused(500, m)
      case Ok(None) => Refused(404, UserNotFound)
      case Ok(Some(user)) =>
        if Get(user, "is_active") == Bool(false) then Refused(403, UserInactive)
        else
          match compare(Field(body, "password"), HashOf(user))
          case Err(m) => Refused(500, m)
          case Ok(matched) => if matched then LoggedIn(RemoveKey(user, "password_hash")) else Refused(401, InvalidCredentials)
  }

  // ---------------------------------------------------------------- lemmas

  /** A missing password, or neither phone nor email, is refused with 400
      whatever the lookups and the comparison would do: neither is consulted. */
  lemma MissingCredentialsFirst(body: Option<Record>, byPhone: Lookup, byEmail: Lookup, compare: Compare,
                                byPhone': Lookup, byEmail': Lookup, compare': Compare)
    requires !Truthy(Field(body, "password")) || (!Truthy(Field(body, "phone")) && !Truthy(Field(body, "email")))
    ensures Login(body, byPhone, byEmail, compare) == Refused(400, CredentialsRequired)
    ensures Login(body, byPhone, byEmail, compare) == Login(body, byPhone', byEmail', compare')
  {
  }

  /** A user found by phone is the user: the email lookup is not consulted. */
  lemma PhoneFirst(phone: Value, email: Value, byPhone: Lookup, byEmail: Lookup, byEmail': Lookup)
    requires Truthy(phone) && byPhone(phone).Ok? && byPhone(phone).value.Some?
    ensures FindUser(phone, email, byPhone, byEmail) == byPhone(phone)
    ensures FindUser(phone, email, byPhone, byEmail) == FindUser(phone, email, byPhone, byEmail')
  {
  }

  /** Email is looked up exactly when a given email follows a phone that is
      missing or matched no one. */
  lemma EmailFallback(phone: Value, email: Value, byPhone: Lookup, byEmail: Lookup)
    requires Truthy(email)
    requires !Truthy(phone) || byPhone(phone) == Ok(None)
    ensures FindUser(phone, email, byPhone, byEmail) == byEmail(email)
  {
  }

  /** No user by either route gives 404. */
  lemma NoUserNotFound(body: Option<Record>, byPhone: Lookup, byEmail: Lookup, compare: Compare)
    requires HasCredentials(body)
    requires FindUser(Field(body, "phone"), Field(body, "email"), byPhone, byEmail) == Ok(None)
    ensures Login(body, byPhone, byEmail, compare) == Refused(404, UserNotFound)
  {
  }

  /** An inactive user is refused with 403 before the password is checked:
      the comparison's answer does not matter. */
  lemma InactiveBeforePassword(body: Option<Record>, byPhone: Lookup, byEmail: Lookup, compare: Compare, compare': Compare, user: Record)
    requires HasCredentials(body)
    requires FindUser(Field(body, "phone"), Field(body, "email"), byPhone, byEmail) == Ok(Some(user))
    requires Get(user, "is_active") == Bool(false)
    ensures Login(body, byPhone, byEmail, compare) == Refused(403, UserInactive)
    ensures Login(body, byPhone, byEmail, compare) == Login(body, byPhone, byEmail, compare')
  {
  }

  /** A user without a password hash is checked against the empty string. */
  lemma MissingHashComparedAsEmpty(body: Option<Record>, byPhone: Lookup, byEmail: Lookup, compare: Compare, user: Record)
    requires HasCredentials(body)
    requires FindUser(Field(body, "phone"), Field(body, "email"), byPhone, byEmail) == Ok(Some(user))
    requires Get(user, "is_active") != Bool(false)
    requires !Truthy(Get(user, "password_hash"))
    requires compare(Field(body, "password"), Str("")) == Ok(false)
    ensures Login(body, byPhone, byEmail, compare) == Refused(401, InvalidCredentials)
  {
  }

  /** The whole chain: a login succeeds exactly when the credentials are
      present, a user is found, the user is not marked inactive and the
      password matches the stored hash (or '' without one); the payload is
      then that user without `password_hash`. */
  lemma LoginSucceedsIff(body: Option<Record>, byPhone: Lookup, byEmail: Lookup, compare: Compare)
    ensures Login(body, byPhone, byEmail, compare).LoggedIn? <==>
      (HasCredentials(body)
       && var found := FindUser(Field(body, "phone"), Field(body, "email"), byPhone, byEmail);
          found.Ok? && found.value.Some?
          && Get(found.value.value, "is_active") != Bool(false)
          && compare(Field(body, "password"), HashOf(found.value.value)) == Ok(true))
    ensures Login(body, byPhone, byEmail, compare).LoggedIn? ==>
      var found := FindUser(Field(body, "phone"), Field(body, "email"), byPhone, byEmail);
      Login(body, byPhone, byEmail, compare).user == RemoveKey(found.value.value, "password_hash")
  {
  }

  /** The success payload keeps every field but `password_hash` with its
      value, and has no `password_hash`. */
  lemma {:induction false} SafeUserFields(user: Record, k: string)
    ensures Get(RemoveKey(user, "password_hash"), "password_hash") == Undefined
    ensures k != "password_hash" ==> Get(RemoveKey(user, "password_hash"), k) == Get(user, k)
  {
    if user != [] {
      SafeUserFields(user[1..], k);
    }
  }

  /** And keeps their order: removing the key from an already safe record
      changes nothing. */
  lemma {:induction false} RemoveKeyAbsent(user: Record, k: string)
    requires forall i :: 0 <= i < |user| ==> user[i].0 != k
    ensures RemoveKey(user, k) == user
  {
    if user != [] {
      RemoveKeyAbsent(user[1..], k);
      assert user == [user[0]] + user[1..];
    }
  }
}
