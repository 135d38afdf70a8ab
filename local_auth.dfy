/**
 * LocalAuthService.swift: the on-device account store used until a server
 * exists. The `registered_users` dictionary and the `current_user_id` slot
 * of the user defaults, and the key chain items, are fields; SHA-256 is an
 * uninterpreted deterministic function; fresh user ids and the creation
 * time are inputs.
 */
module LocalAuth {
  import opened Base
  import Seqs

  /** `AuthError`. */
  datatype AuthError = EmailAlreadyExists | InvalidCredentials | UserNotFound | InvalidEmail | WeakPassword | EmptyFields

  /** The outcome of a call that throws an `AuthError`. */
  datatype Outcome<T> = Success(value: T) | Failure(error: AuthError)

  /** `errorDescription`. */
  function ErrorDescription(e: AuthError): (text: string)
    ensures |text| > 0
  {
    match e
    case EmailAlreadyExists => "이미 가입된 이메일입니다."
    case InvalidCredentials => "이메일 또는 비밀번호가 올바르지 않습니다."
    case UserNotFound => "등록되지 않은 사용자입니다."
    case InvalidEmail => "올바른 이메일 형식이 아닙니다."
    case WeakPassword => "비밀번호는 6자 이상이어야 합니다."
    case EmptyFields => "모든 필드를 입력해주세요."
  }

  /** Each error has its own message. */
  lemma ErrorDescriptionsDistinct(a: AuthError, b: AuthError)
    requires a != b
    ensures ErrorDescription(a) != ErrorDescription(b)
  {
  }

  /** `User`: the account, identified by a UUID string. */
  datatype User = User(id: string, email: string, nickname: string, createdAt: Date)

  /** `StoredUser`: an account with the hash of its password. */
  datatype StoredUser = StoredUser(user: User, passwordHash: string)

  /** The key chain items `clearAll` removes. */
  datatype KeychainKey = UserIdentifier | AccessToken | RefreshToken

  /** The minimum password length `signUp` accepts. */
  const MinPasswordLength: nat := 6

  predicate IsLetter(c: char) { 'A' <= c <= 'Z' || 'a' <= c <= 'z' }
  predicate IsDigit(c: char) { '0' <= c <= '9' }

  /** `[A-Za-z0-9._%+-]`. */
  predicate LocalPartChar(c: char) {
    IsLetter(c) || IsDigit(c) || c == '.' || c == '_' || c == '%' || c == '+' || c == '-'
  }

  /** `[A-Za-z0-9.-]`. */
  predicate DomainChar(c: char) {
    IsLetter(c) || IsDigit(c) || c == '.' || c == '-'
  }

  predicate IsAt(c: char) { c == '@' }

  /**
   * The email pattern, read at an `@` at index `a` and a `.` at index `d`:
   * a non-empty local part, a non-empty domain, and at least two letters
   * after the dot, up to the end.
   */
  predicate SplitsAsEmail(email: string, a: nat, d: nat) {
    && 0 < a && a + 1 < d && d + 2 < |email|
    && email[a] == '@' && email[d] == '.'
    && (forall i :: 0 <= i < a ==> LocalPartChar(email[i]))
    && (forall i :: a < i < d ==> DomainChar(email[i]))
    && (forall i :: d < i < |email| ==> IsLetter(email[i]))
  }

  /** The last index holding `c`. */
  function LastIndexOf(s: string, c: char): (r: Option<nat>)
    ensures r.Some? ==> r.value < |s| && s[r.value] == c && forall i :: r.value < i < |s| ==> s[i] != c
    ensures r.None? ==> forall i :: 0 <= i < |s| ==> s[i] != c
  {
    if |s| == 0 then None
    else if s[|s| - 1] == c then Some(|s| - 1)
    else LastIndexOf(s[..|s| - 1], c)
  }

  /**
   * `isValidEmail`: the pattern matches exactly when the text splits, at
   * some `@` and some later `.`, as the pattern asks. Only the first `@`
   * and the last `.` can be those, so they are the ones tried.
   */
  function IsValidEmail(email: string): (valid: bool)
    ensures valid <==> exists a: nat, d: nat :: SplitsAsEmail(email, a, d)
  {
    var at := Seqs.FirstIndex(email, IsAt);
    var dot := LastIndexOf(email, '.');
    EmailSplitIsDetermined(email);
    at.Some? && dot.Some? && SplitsAsEmail(email, at.value, dot.value)
  }

  /** Any split the pattern accepts is at the first `@` and the last `.`. */
  lemma EmailSplitIsDetermined(email: string)
    ensures forall a: nat, d: nat :: SplitsAsEmail(email, a, d) ==>
      Seqs.FirstIndex(email, IsAt) == Some(a) && LastIndexOf(email, '.') == Some(d)
  {
    forall a: nat, d: nat | SplitsAsEmail(email, a, d)
      ensures Seqs.FirstIndex(email, IsAt) == Some(a) && LastIndexOf(email, '.') == Some(d)
    {
      var at := Seqs.FirstIndex(email, IsAt);
      assert IsAt(email[a]);
      assert at.value == a;
      var dot := LastIndexOf(email, '.');
      assert dot.value == d;
    }
  }

  /** Some stored account has this email. */
  predicate EmailTaken(users: map<string, StoredUser>, email: string) {
    exists id :: id in users && users[id].user.email == email
  }

  /**
   * The error `signUp` throws, checked in this order: an empty field, a
   * malformed email, a password under six characters, an email already
   * registered. None when all checks pass.
   */
  function SignUpError(users: map<string, StoredUser>, email: string, password: string, nickname: string): (e: Option<AuthError>)
    ensures (email == [] || password == [] || nickname == []) <==> e == Some(EmptyFields)
    ensures e == Some(InvalidEmail) <==> email != [] && password != [] && nickname != [] && !IsValidEmail(email)
    ensures e == Some(WeakPassword) <==>
      email != [] && password != [] && nickname != [] && IsValidEmail(email) && |password| < MinPasswordLength
    ensures e == Some(EmailAlreadyExists) <==>
      email != [] && password != [] && nickname != [] && IsValidEmail(email) && |password| >= MinPasswordLength
      && EmailTaken(users, email)
    ensures e.None? <==>
      email != [] && nickname != [] && IsValidEmail(email) && |password| >= MinPasswordLength && !EmailTaken(users, email)
  {
    if email == [] || password == [] || nickname == [] then Some(EmptyFields)
    else if !IsValidEmail(email) then Some(InvalidEmail)
    else if |password| < MinPasswordLength then Some(WeakPassword)
    else if EmailTaken(users, email) then Some(EmailAlreadyExists)
    else None
  }

  /** The accounts are keyed by their ids and no two share an email. */
  ghost predicate WellFormed(users: map<string, StoredUser>) {
    && (forall id :: id in users ==> users[id].user.id == id)
    && (forall a, b :: a in users && b in users && users[a].user.email == users[b].user.email ==> a == b)
  }

  /**
   * What `signIn` answers for a store whose emails are unique: an empty
   * field, no account with that email, a password whose hash differs, or
   * the account.
   */
  ghost function SignInOutcome(users: map<string, StoredUser>, email: string, password: string, hash: string -> string): Outcome<User>
    requires WellFormed(users)
  {
    if email == [] || password == [] then Failure(EmptyFields)
    else if !EmailTaken(users, email) then Failure(UserNotFound)
    else
      var id :| id in users && users[id].user.email == email;
      if users[id].passwordHash == hash(password) then Success(users[id].user) else Failure(InvalidCredentials)
  }

  /** The store after a successful `signUp`. */
  function Registered(users: map<string, StoredUser>, user: User, passwordHash: string): (r: map<string, StoredUser>)
    ensures r.Keys == users.Keys + {user.id}
    ensures forall id :: id in users && id != user.id ==> r[id] == users[id]
  {
    users[user.id := StoredUser(user, passwordHash)]
  }

  /** Signing up keeps the store well formed. */
  lemma SignUpKeepsWellFormed(users: map<string, StoredUser>, email: string, password: string, nickname: string,
                              freshId: string, now: Date, hash: string -> string)
    requires WellFormed(users) && SignUpError(users, email, password, nickname).None?
    ensures WellFormed(Registered(users, User(freshId, email, nickname, now), hash(password)))
  {
  }

  /** An account just created can be signed in to with the same email and password. */
  lemma SignUpThenSignIn(users: map<string, StoredUser>, email: string, password: string, nickname: string,
                         freshId: string, now: Date, hash: string -> string)
    requires WellFormed(users) && SignUpError(users, email, password, nickname).None?
    ensures var user := User(freshId, email, nickname, now);
      var after := Registered(users, user, hash(password));
      WellFormed(after) && SignInOutcome(after, email, password, hash) == Success(user)
  {
    var user := User(freshId, email, nickname, now);
    var after := Registered(users, user, hash(password));
    SignUpKeepsWellFormed(users, email, password, nickname, freshId, now, hash);
    assert after[freshId].user.email == email;
  }

  /** Once an email is registered, any further sign-up with it that passes the other checks is refused. */
  lemma SecondSignUpRefused(users: map<string, StoredUser>, user: User, passwordHash: string, password: string, nickname: string)
    requires password != [] && nickname != [] && IsValidEmail(user.email) && |password| >= MinPasswordLength
    ensures SignUpError(Registered(users, user, passwordHash), user.email, password, nickname) == Some(EmailAlreadyExists)
  {
    assert Registered(users, user, passwordHash)[user.id].user.email == user.email;
  }

  /** `LocalAuthService`. */
  class LocalAuthService {
    /** `registered_users`: the accounts by id. */
    var users: map<string, StoredUser>
    /** `current_user_id`. */
    var currentUserId: Option<string>
    var keychain: map<KeychainKey, string>
    /** `hashPassword`: the hex SHA-256 digest of the UTF-8 bytes. */
    const hash: string -> string

    ghost predicate Valid()
      reads this
    {
      WellFormed(users)
    }

    /** The service over what the user defaults and the key chain already hold. */
    constructor (storedUsers: map<string, StoredUser>, storedCurrentId: Option<string>,
                 storedKeychain: map<KeychainKey, string>, hashPassword: string -> string)
      requires WellFormed(storedUsers)
      ensures Valid()
      ensures users == storedUsers && currentUserId == storedCurrentId && keychain == storedKeychain
      ensures hash == hashPassword
    {
      users := storedUsers;
      currentUserId := storedCurrentId;
      keychain := storedKeychain;
      hash := hashPassword;
    }

    /** `getCurrentUser`: the account in the current-user slot, if it is still stored. */
    function CurrentUser(): (u: Option<User>)
      reads this
      ensures u.Some? <==> currentUserId.Some? && currentUserId.value in users
      ensures u.Some? ==> u.value == users[currentUserId.value].user
    {
      if currentUserId.Some? && currentUserId.value in users then Some(users[currentUserId.value].user) else None
    }

    /** `setCurrentUser`. */
    method SetCurrentUser(user: User)
      modifies this
      ensures currentUserId == Some(user.id) && keychain == old(keychain)[UserIdentifier := user.id]
      ensures users == old(users)
    {
      currentUserId := Some(user.id);
      keychain := keychain[UserIdentifier := user.id];
    }

    /**
     * `signUp`: after the checks, the new account is stored with the hash
     * of its password and becomes the current user; a refused sign-up
     * changes nothing.
     */
    method SignUp(email: string, password: string, nickname: string, freshId: string, now: Date)
      returns (r: Outcome<User>)
      requires Valid() && freshId !in users
      modifies this
      ensures Valid()
      ensures SignUpError(old(users), email, password, nickname).Some? ==>
        && r == Failure(SignUpError(old(users), email, password, nickname).value)
        && users == old(users) && currentUserId == old(currentUserId) && keychain == old(keychain)
      ensures SignUpError(old(users), email, password, nickname).None? ==>
        && r == Success(User(freshId, email, nickname, now))
        && users == Registered(old(users), r.value, hash(password))
        && currentUserId == Some(freshId) && keychain == old(keychain)[UserIdentifier := freshId]
        && |users| == |old(users)| + 1
      ensures r.Success? ==> CurrentUser() == Some(r.value)
    {
      if email == [] || password == [] || nickname == [] {
        return Failure(EmptyFields);
      }
      if !IsValidEmail(email) {
        return Failure(InvalidEmail);
      }
      if |password| < MinPasswordLength {
        return Failure(WeakPassword);
      }
      if EmailTaken(users, email) {
        return Failure(EmailAlreadyExists);
      }
      var user := User(freshId, email, nickname, now);
      var hashedPassword := hash(password);
      SignUpKeepsWellFormed(users, email, password, nickname, freshId, now, hash);
      users := users[user.id := StoredUser(user, hashedPassword)];
      SetCurrentUser(user);
      r := Success(user);
    }

    /**
     * `signIn`: the account with that email, if the password's hash is the
     * stored one; it becomes the current user. The store never changes.
     */
    method SignIn(email: string, password: string) returns (r: Outcome<User>)
      requires Valid()
      modifies this
      ensures Valid() && users == old(users)
      ensures r == SignInOutcome(old(users), email, password, hash)
      ensures r.Failure? ==> currentUserId == old(currentUserId) && keychain == old(keychain)
      ensures r.Success? ==> currentUserId == Some(r.value.id) && keychain == old(keychain)[UserIdentifier := r.value.id]
      ensures r.Success? ==> CurrentUser() == Some(r.value)
    {
      if email == [] || password == [] {
        return Failure(EmptyFields);
      }
      if !EmailTaken(users, email) {
        return Failure(UserNotFound);
      }
      var id :| id in users && users[id].user.email == email;
      var storedUser := users[id];
      var hashedPassword := hash(password);
      if storedUser.passwordHash != hashedPassword {
        return Failure(InvalidCredentials);
      }
      SetCurrentUser(storedUser.user);
      r := Success(storedUser.user);
    }

    /** `signOut`: the current-user slot and every key chain item are cleared; no user is current. */
    method SignOut()
      modifies this
      ensures currentUserId.None? && keychain == map[] && users == old(users)
      ensures CurrentUser().None?
    {
      currentUserId := None;
      keychain := map[];
    }

    /**
     * `deleteAccount`: without a current user, `userNotFound` and nothing
     * changes; otherwise only that id's account is removed, and the user is
     * signed out.
     */
    method DeleteAccount() returns (error: Option<AuthError>)
      requires Valid()
      modifies this
      ensures Valid()
      ensures old(currentUserId).None? ==>
        error == Some(UserNotFound) && users == old(users) && currentUserId.None? && keychain == old(keychain)
      ensures old(currentUserId).Some? ==>
        error.None? && users == old(users) - {old(currentUserId).value} && currentUserId.None? && keychain == map[]
    {
      if currentUserId.None? {
        return Some(UserNotFound);
      }
      var userId := currentUserId.value;
      users := users - {userId};
      SignOut();
      error := None;
    }
  }
}
