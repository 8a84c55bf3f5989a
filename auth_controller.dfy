/** The server's authentication handlers: the registration guard chain and insertion, the
    login guard chain and its response, and the token middleware. The user collection is a
    sequence in insertion order; password hashing, hash comparison and token signing and
    verification are functions supplied by the caller, with nothing assumed about them. */
module AuthController {
  import opened Wrappers
  import opened Text
  import opened Session

  datatype UserRecord = UserRecord(id: nat, userName: string, email: string, passwordHash: string, role: string)

  /** An HTTP status with the `{ success, message }` body every handler sends. */
  datatype Response = Response(status: nat, success: bool, message: string)

  /** Why `save()` can throw: a unique-index violation with the conflicting fields, or any
      other failure of the store. */
  datatype SaveFault = DuplicateKey(fields: seq<string>) | StoreFailure

  const MissingFields := Response(400, false, "All fields are required")
  const UserNameTaken := Response(400, false, "Username is already taken")
  const EmailTaken := Response(400, false, "Email is already taken")
  const Registered := Response(201, true, "User registered successfully")
  const RegisterFailed := Response(500, false, "Failed to register user")
  const UnknownEmail := Response(401, false, "User Does not exist! Please register first")
  const WrongPassword := Response(401, false, "Incorrect password! Please try again")
  const LoggedIn := Response(200, true, "Logged in successfully")
  const LoginFailed := Response(500, false, "Failed to login")
  const Unauthorized := Response(401, false, "Unauthorized User!")

  /** `v?.trim()`. */
  function TrimField(v: Option<string>): (r: Option<string>)
    ensures r.Some? <==> v.Some?
    ensures v.Some? ==> r.value == Trim(v.value)
  {
    match v
    case Some(s) => Some(Trim(s))
    case None => None
  }

  /** A truthy string field: present and not empty. */
  predicate Present(v: Option<string>)
  {
    v.Some? && v.value != ""
  }

  predicate UserNameInUse(users: seq<UserRecord>, userName: string)
  {
    exists i :: 0 <= i < |users| && users[i].userName == userName
  }

  predicate EmailInUse(users: seq<UserRecord>, email: string)
  {
    exists i :: 0 <= i < |users| && users[i].email == email
  }

  /** The outcome of the checks before the insert: a rejection, or the values to store. */
  datatype RegisterCheck = Reject(response: Response) | Accept(userName: string, email: string, password: string)

  /** The registration guard chain: trim the user name and e-mail (not the password), then
      require all three, then a free user name, then a free e-mail. */
  function CheckRegistration(users: seq<UserRecord>, userName: Option<string>, email: Option<string>,
                             password: Option<string>): (c: RegisterCheck)
    ensures c == Reject(MissingFields) <==>
              !Present(TrimField(userName)) || !Present(TrimField(email)) || !Present(password)
    ensures c == Reject(UserNameTaken) <==>
              Present(TrimField(userName)) && Present(TrimField(email)) && Present(password)
              && UserNameInUse(users, Trim(userName.value))
    ensures c == Reject(EmailTaken) <==>
              Present(TrimField(userName)) && Present(TrimField(email)) && Present(password)
              && !UserNameInUse(users, Trim(userName.value)) && EmailInUse(users, Trim(email.value))
    ensures c.Accept? ==> c.userName == Trim(userName.value) && c.email == Trim(email.value)
                          && c.password == password.value
                          && c.userName != "" && c.email != "" && c.password != ""
                          && !UserNameInUse(users, c.userName) && !EmailInUse(users, c.email)
  {
    var u := TrimField(userName);
    var e := TrimField(email);
    if !Present(u) || !Present(e) || !Present(password) then Reject(MissingFields)
    else if UserNameInUse(users, u.value) then Reject(UserNameTaken)
    else if EmailInUse(users, e.value) then Reject(EmailTaken)
    else Accept(u.value, e.value, password.value)
  }

  /** The missing-fields verdict is reached without looking at the store. */
  lemma MissingFieldsIgnoresStore(users: seq<UserRecord>, others: seq<UserRecord>,
                                  userName: Option<string>, email: Option<string>, password: Option<string>)
    requires CheckRegistration(users, userName, email, password) == Reject(MissingFields)
    ensures CheckRegistration(others, userName, email, password) == Reject(MissingFields)
  {
  }

  /** The message naming a duplicated field; JavaScript prints a missing key as "undefined". */
  const Taken := " is already taken"
  const Undefined := "undefined"

  /** The response to a `save()` that threw: a duplicate key names its first field. */
  function SaveFailed(fault: SaveFault): (r: Response)
    ensures !r.success
    ensures fault.DuplicateKey? ==> r.status == 400
    ensures fault.DuplicateKey? && |fault.fields| > 0 ==> r.message == fault.fields[0] + Taken
    ensures fault.DuplicateKey? && |fault.fields| == 0 ==> r.message == Undefined + Taken
    ensures fault.StoreFailure? ==> r == RegisterFailed
  {
    match fault
    case DuplicateKey(fields) =>
      var field := if |fields| > 0 then fields[0] else Undefined;
      Response(400, false, field + Taken)
    case StoreFailure => RegisterFailed
  }

  /** The first record with the given e-mail (`findOne({ email })`). */
  function FindByEmail(users: seq<UserRecord>, email: string): (r: Option<nat>)
    ensures r.Some? ==> r.value < |users| && users[r.value].email == email
                        && forall j :: 0 <= j < r.value ==> users[j].email != email
    ensures r.None? <==> !EmailInUse(users, email)
  {
    if |users| == 0 then None
    else if users[0].email == email then Some(0)
    else
      match FindByEmail(users[1..], email)
      case None => None
      case Some(k) => Some(k + 1)
  }

  /** The result of a login: the response, the user it carries and the cookie's token. */
  datatype LoginResult = LoginResult(response: Response, user: Option<SessionUser>, token: Option<string>)

  /** The user object of the login response, also the token's claims. */
  function SessionOf(r: UserRecord): SessionUser
  {
    SessionUser(r.id, r.email, r.role, r.userName)
  }

  /** The login guard chain over a store. `findFails` is a failure of `findOne`; a missing
      password makes `bcrypt.compare` throw. Both end in the handler's catch. */
  function Login(users: seq<UserRecord>, email: string, password: Option<string>, findFails: bool,
                 compare: (string, string) -> bool, sign: SessionUser -> string): (r: LoginResult)
    ensures r.response in {UnknownEmail, WrongPassword, LoginFailed, LoggedIn}
    ensures r.response == LoginFailed <==> findFails || (EmailInUse(users, email) && password.None?)
    ensures r.response == UnknownEmail <==> !findFails && !EmailInUse(users, email)
    ensures r.response == WrongPassword <==>
              !findFails && EmailInUse(users, email) && password.Some?
              && !compare(password.value, users[FindByEmail(users, email).value].passwordHash)
    ensures r.response == LoggedIn ==>
              var rec := users[FindByEmail(users, email).value];
              && r.user == Some(SessionUser(rec.id, rec.email, rec.role, rec.userName))
              && r.token == Some(sign(SessionOf(rec)))
              && password.Some? && compare(password.value, rec.passwordHash)
    ensures r.response != LoggedIn ==> r.user == None && r.token == None
  {
    if findFails then LoginResult(LoginFailed, None, None)
    else match FindByEmail(users, email)
      case None => LoginResult(UnknownEmail, None, None)
      case Some(i) =>
        match password
        case None => LoginResult(LoginFailed, None, None)
        case Some(pw) =>
          if !compare(pw, users[i].passwordHash) then LoginResult(WrongPassword, None, None)
          else LoginResult(LoggedIn, Some(SessionOf(users[i])), Some(sign(SessionOf(users[i]))))
  }

  /** What the middleware does with a request: reject it, or pass it on with its user. */
  datatype Gate = Reject401(response: Response) | Next(user: SessionUser)

  /** `authMiddleware`: no cookie token, or one that does not verify, answers 401 and never
      reaches `next`; otherwise the decoded claims become the request's user. */
  function Authenticate(token: Option<string>, verify: string -> Option<SessionUser>): (g: Gate)
    ensures g.Next? <==> Present(token) && verify(token.value).Some?
    ensures g.Next? ==> g.user == verify(token.value).value
    ensures g.Reject401? ==> g.response == Unauthorized
  {
    if !Present(token) then Reject401(Unauthorized)
    else match verify(token.value)
      case None => Reject401(Unauthorized)
      case Some(claims) => Next(claims)
  }

  /** Ids are positions; user names and e-mails are unique and stored trimmed. */
  predicate WellFormed(users: seq<UserRecord>)
  {
    && (forall i :: 0 <= i < |users| ==> users[i].id == i)
    && (forall i, j :: 0 <= i < j < |users| ==> users[i].userName != users[j].userName)
    && (forall i, j :: 0 <= i < j < |users| ==> users[i].email != users[j].email)
    && (forall i :: 0 <= i < |users| ==> Trim(users[i].email) == users[i].email)
    && (forall i :: 0 <= i < |users| ==> Trim(users[i].userName) == users[i].userName)
  }

  /** Appending a record with the next id and a free, trimmed name and e-mail keeps the
      collection well formed. */
  lemma AppendWellFormed(users: seq<UserRecord>, rec: UserRecord)
    requires WellFormed(users) && rec.id == |users|
    requires !UserNameInUse(users, rec.userName) && !EmailInUse(users, rec.email)
    requires Trim(rec.userName) == rec.userName && Trim(rec.email) == rec.email
    ensures WellFormed(users + [rec])
  {
    var us := users + [rec];
    forall i, j | 0 <= i < j < |us|
      ensures us[i].userName != us[j].userName && us[i].email != us[j].email
    {
      if j == |users| {
        assert us[i] == users[i];
      }
    }
  }

  /** The user collection. */
  class UserStore {
    var users: seq<UserRecord>
    /** The role the user schema gives a new document. */
    const defaultRole: string

    /** Ids are positions; user names and e-mails are unique and stored trimmed. */
    predicate Valid()
      reads this
    {
      WellFormed(users)
    }

    constructor (defaultRole: string)
      ensures Valid() && users == [] && this.defaultRole == defaultRole
    {
      users := [];
      this.defaultRole := defaultRole;
    }

    /** `registerUser`. `fault` is what `save()` throws, if anything. */
    method Register(userName: Option<string>, email: Option<string>, password: Option<string>,
                    hash: string -> string, fault: Option<SaveFault>) returns (resp: Response)
      requires Valid()
      modifies this
      ensures Valid()
      ensures CheckRegistration(old(users), userName, email, password).Reject? ==>
                resp == CheckRegistration(old(users), userName, email, password).response && users == old(users)
      ensures CheckRegistration(old(users), userName, email, password).Accept? && fault.Some? ==>
                resp == SaveFailed(fault.value) && users == old(users)
      ensures CheckRegistration(old(users), userName, email, password).Accept? && fault.None? ==>
                var c := CheckRegistration(old(users), userName, email, password);
                resp == Registered
                && users == old(users) + [UserRecord(|old(users)|, c.userName, c.email, hash(c.password), defaultRole)]
    {
      var c := CheckRegistration(users, userName, email, password);
      if c.Reject? {
        return c.response;
      }
      if fault.Some? {
        return SaveFailed(fault.value);
      }
      var rec := UserRecord(|users|, c.userName, c.email, hash(c.password), defaultRole);
      TrimIdempotent(email.value);
      TrimIdempotent(userName.value);
      AppendWellFormed(users, rec);
      users := users + [rec];
      resp := Registered;
    }
  }

  /** Login does not trim: stored e-mails are trimmed, so an e-mail typed with leading
      whitespace never matches a registered user. */
  lemma UntrimmedLoginFails(users: seq<UserRecord>, email: string, password: Option<string>,
                            compare: (string, string) -> bool, sign: SessionUser -> string)
    requires forall i :: 0 <= i < |users| ==> Trim(users[i].email) == users[i].email
    requires |email| > 0 && IsSpace(email[0])
    ensures Login(users, email, password, false, compare, sign).response == UnknownEmail
  {
    forall i | 0 <= i < |users|
      ensures users[i].email != email
    {
      TrimShape(users[i].email);
      assert users[i].email == [] || users[i].email[0] != email[0];
    }
  }
}
