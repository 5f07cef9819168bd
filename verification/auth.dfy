/** AuthService: log-in with a lock after repeated wrong passwords,
    password expiry and strength, sign-up, and password change with a
    history of the newest three password hashes.

    A LocalDateTime is a number of seconds; "now" is always a parameter.
    The password encoder and the token issuer are functions the service is
    given.  The user table and the password-history table are maps that
    the service's methods update. */
module Auth {
  import opened Common

  const MaxPwdErrorTimes: int := 5
  const LockPwdMinutes: int := 15
  const PwdValidDays: int := 90
  const SecondsPerMinute: int := 60
  const SecondsPerDay: int := 86400
  const HistorySize: nat := 3

  /** AuthDefine: the outcomes, with their codes. */
  datatype AuthDefine =
    | AuthenticationSuccess | AuthenticationFailed | UsernameAlreadyInUse | PasswordNotStrong
    | InvalidToken | InvalidRole | UserNotExist | PasswordReused | PasswordExpired | AccountLocked
  {
    function StatusCode(): int {
      match this
      case AuthenticationSuccess => 0
      case AuthenticationFailed => 1
      case UsernameAlreadyInUse => 2
      case PasswordNotStrong => 3
      case InvalidToken => 4
      case InvalidRole => 5
      case UserNotExist => 7
      case PasswordReused => 8
      case PasswordExpired => 9
      case AccountLocked => 10
    }

    function Description(): string {
      match this
      case AuthenticationSuccess => "Authentication success"
      case AuthenticationFailed => "Incorrect username or password, or session expired. Please log in again."
      case UsernameAlreadyInUse => "This username is already taken."
      case PasswordNotStrong => "Password must be at least 8 characters long and include uppercase letters, lowercase letters, numbers, and special symbols."
      case InvalidToken => "Invalid or expired token."
      case InvalidRole => "Invalid role."
      case UserNotExist => "The user does not exist."
      case PasswordReused => "Password cannot be the same as any of the previous 3 passwords."
      case PasswordExpired => "Password has expired after 90 days."
      case AccountLocked => "Account is locked after exceeding 5 failed password attempts."
    }
  }

  datatype HttpStatus = BadRequest | Unauthorized | Forbidden | NotFound | Conflict {
    function Code(): int {
      match this
      case BadRequest => 400
      case Unauthorized => 401
      case Forbidden => 403
      case NotFound => 404
      case Conflict => 409
    }
  }

  /** What the service throws: a CustomException for one of the outcomes,
      the lock message with the minutes left, or the RuntimeException of a
      role missing from the role table. */
  datatype AuthError =
    | Refused(define: AuthDefine, status: HttpStatus)
    | Locked(minutes: int)
    | RoleNotFound(role: string)
  {
    function Message(): string {
      match this
      case Refused(define, _) => define.Description()
      case Locked(minutes) => AccountLocked.Description() + " Remains " + DecString(minutes) + " minutes"
      case RoleNotFound(role) => "Role not found: " + role
    }
  }

  /** The stored user (the fields the service reads or writes). */
  datatype User = User(username: string, password: string, roles: set<string>,
                       pwdErrorTimes: int, pwdTryTime: int, changedAt: Option<int>)

  /** The password encoder: a salted hash and the test of a raw password
      against a hash. */
  datatype Encoder = Encoder(encode: string -> string, matches: (string, string) -> bool)

  const TokenType: string := "Bearer"

  /** JwtAuthenticationResponse. */
  datatype Response = Response(username: string, accessToken: string, outcome: AuthDefine) {
    function Message(): string {
      outcome.Description()
    }
    function Status(): int {
      outcome.StatusCode()
    }
  }

  // ---------------------------------------------------------------------
  // Lock and expiry
  // ---------------------------------------------------------------------

  /** Java's long division, which truncates toward zero. */
  function TruncDiv(x: int, d: int): int
    requires d > 0
  {
    if x >= 0 then x / d else -((-x) / d)
  }

  /** remainingLockMinutes: the whole minutes from now until 15 minutes
      after the last try, never negative. */
  function RemainingLockMinutes(tryTime: int, now: int): (m: int)
    ensures m >= 0
    ensures m == 0 <==> now > tryTime + (LockPwdMinutes - 1) * SecondsPerMinute
    ensures m > 0 ==> m * SecondsPerMinute <= tryTime + LockPwdMinutes * SecondsPerMinute - now < (m + 1) * SecondsPerMinute
  {
    var unlockTime := tryTime + LockPwdMinutes * SecondsPerMinute;
    var minutes := TruncDiv(unlockTime - now, SecondsPerMinute);
    if minutes > 0 then minutes else 0
  }

  /** canTryPassword: fewer than five errors, or the lock has run out.
      The minutes are truncated, so the lock runs out once less than a
      whole minute of the 15 is left. */
  function CanTryPassword(errors: int, tryTime: int, now: int): (r: bool)
    ensures r <==> errors < MaxPwdErrorTimes || now > tryTime + (LockPwdMinutes - 1) * SecondsPerMinute
  {
    if errors < MaxPwdErrorTimes then true
    else RemainingLockMinutes(tryTime, now) <= 0
  }

  /** isPasswordExpired: never changed, or 90 whole days ago or more. */
  function IsPasswordExpired(changedAt: Option<int>, now: int): (r: bool)
    ensures r <==> changedAt.None? || now - changedAt.value >= PwdValidDays * SecondsPerDay
  {
    if changedAt.None? then true
    else TruncDiv(now - changedAt.value, SecondsPerDay) >= PwdValidDays
  }

  // ---------------------------------------------------------------------
  // Password strength
  // ---------------------------------------------------------------------

  predicate IsUpper(c: char) { 'A' <= c <= 'Z' }
  predicate IsLower(c: char) { 'a' <= c <= 'z' }
  predicate IsDigit(c: char) { '0' <= c <= '9' }
  /** `[^a-zA-Z0-9]`. */
  predicate IsSpecial(c: char) { !IsUpper(c) && !IsLower(c) && !IsDigit(c) }
  /** The characters a regex `.` does not match. */
  predicate IsLineTerminator(c: char) {
    c == '\n' || c == '\r' || c == '\U{85}' || c == '\U{2028}' || c == '\U{2029}'
  }

  /** What the strength pattern asks, stated directly: eight or more
      characters, none a line terminator, with an upper-case letter, a
      lower-case letter, a digit and a character that is none of these. */
  ghost predicate Strong(p: string) {
    |p| >= 8
    && (forall i :: 0 <= i < |p| ==> !IsLineTerminator(p[i]))
    && (exists i :: 0 <= i < |p| && IsUpper(p[i]))
    && (exists i :: 0 <= i < |p| && IsLower(p[i]))
    && (exists i :: 0 <= i < |p| && IsDigit(p[i]))
    && (exists i :: 0 <= i < |p| && IsSpecial(p[i]))
  }

  /** The character classes seen in a password. */
  datatype Classes = Classes(upper: bool, lower: bool, digit: bool, special: bool, terminator: bool)

  /** One left-to-right pass collecting the classes. */
  function ClassesOf(p: string): Classes {
    if p == [] then Classes(false, false, false, false, false)
    else
      var c := ClassesOf(p[..|p| - 1]);
      var x := p[|p| - 1];
      Classes(c.upper || IsUpper(x), c.lower || IsLower(x), c.digit || IsDigit(x),
              c.special || IsSpecial(x), c.terminator || IsLineTerminator(x))
  }

  lemma {:induction false} ClassesOfMeaning(p: string)
    ensures var c := ClassesOf(p);
      (c.upper <==> exists i :: 0 <= i < |p| && IsUpper(p[i]))
      && (c.lower <==> exists i :: 0 <= i < |p| && IsLower(p[i]))
      && (c.digit <==> exists i :: 0 <= i < |p| && IsDigit(p[i]))
      && (c.special <==> exists i :: 0 <= i < |p| && IsSpecial(p[i]))
      && (c.terminator <==> exists i :: 0 <= i < |p| && IsLineTerminator(p[i]))
    decreases |p|
  {
    if p != [] {
      var front := p[..|p| - 1];
      ClassesOfMeaning(front);
      assert forall i :: 0 <= i < |front| ==> front[i] == p[i];
    }
  }

  /** isWeakPassword: the password fails the strength pattern. */
  function IsWeakPassword(p: string): (r: bool)
    ensures r <==> !Strong(p)
  {
    var c := ClassesOf(p);
    ClassesOfMeaning(p);
    !(|p| >= 8 && c.upper && c.lower && c.digit && c.special && !c.terminator)
  }

  // ---------------------------------------------------------------------
  // authenticate
  // ---------------------------------------------------------------------

  /** The scope the token is issued for. */
  function Scope(expired: bool): string {
    if expired then "PASSWORD_RESET" else ""
  }

  /** One log-in of a stored user: the user as saved afterwards and the
      answer.  A locked account is refused before the password is looked
      at; a wrong password adds one error, a right one clears them, and
      only then are the roles checked. */
  function Attempt(u: User, password: string, now: int, enc: Encoder, token: (string, string) -> string): (r: (User, Result<Response, AuthError>))
    ensures r.0 == u.(pwdErrorTimes := r.0.pwdErrorTimes)
    ensures !CanTryPassword(u.pwdErrorTimes, u.pwdTryTime, now) ==> r == (u, Err(Locked(RemainingLockMinutes(u.pwdTryTime, now))))
    ensures CanTryPassword(u.pwdErrorTimes, u.pwdTryTime, now) ==>
      r.0.pwdErrorTimes == if enc.matches(password, u.password) then 0 else u.pwdErrorTimes + 1
    ensures r.1.Ok? <==> CanTryPassword(u.pwdErrorTimes, u.pwdTryTime, now) && enc.matches(password, u.password)
                         && ("ADMIN" in u.roles || "USER" in u.roles)
  {
    if !CanTryPassword(u.pwdErrorTimes, u.pwdTryTime, now) then
      (u, Err(Locked(RemainingLockMinutes(u.pwdTryTime, now))))
    else if !enc.matches(password, u.password) then
      (u.(pwdErrorTimes := u.pwdErrorTimes + 1), Err(Refused(AuthenticationFailed, Unauthorized)))
    else
      var saved := u.(pwdErrorTimes := 0);
      if !("ADMIN" in u.roles || "USER" in u.roles) then (saved, Err(Refused(InvalidRole, BadRequest)))
      else
        var expired := IsPasswordExpired(u.changedAt, now);
        var outcome := if expired then PasswordExpired else AuthenticationSuccess;
        (saved, Ok(Response(u.username, token(u.username, Scope(expired)), outcome)))
  }

  /** While the account is locked the answer does not depend on the
      password and nothing is saved. */
  lemma LockedIgnoresPassword(u: User, p: string, q: string, now: int, enc: Encoder, token: (string, string) -> string)
    requires u.pwdErrorTimes >= MaxPwdErrorTimes && now <= u.pwdTryTime + (LockPwdMinutes - 1) * SecondsPerMinute
    ensures Attempt(u, p, now, enc, token) == Attempt(u, q, now, enc, token)
    ensures Attempt(u, p, now, enc, token).0 == u
    ensures Attempt(u, p, now, enc, token).1 == Err(Locked(RemainingLockMinutes(u.pwdTryTime, now)))
    ensures RemainingLockMinutes(u.pwdTryTime, now) >= 1
  {
  }

  /** A successful log-in with an expired password says so (status 9) and
      its token carries the password-reset scope; otherwise it is a plain
      success with an empty scope. */
  lemma ExpiredLogIn(u: User, password: string, now: int, enc: Encoder, token: (string, string) -> string)
    requires Attempt(u, password, now, enc, token).1.Ok?
    ensures var resp := Attempt(u, password, now, enc, token).1.value;
      var expired := u.changedAt.None? || now - u.changedAt.value >= PwdValidDays * SecondsPerDay;
      resp.username == u.username
      && (expired ==> resp.Status() == 9 && resp.accessToken == token(u.username, "PASSWORD_RESET"))
      && (!expired ==> resp.Status() == 0 && resp.accessToken == token(u.username, ""))
  {
  }

  /** A sequence of log-in attempts: the password typed and the time. */
  datatype Try = Try(password: string, at: int)

  /** The user as saved after the attempts, one after the other. */
  function AfterTries(u: User, tries: seq<Try>, enc: Encoder, token: (string, string) -> string): User
    decreases |tries|
  {
    if tries == [] then u
    else
      var last := tries[|tries| - 1];
      Attempt(AfterTries(u, tries[..|tries| - 1], enc, token), last.password, last.at, enc, token).0
  }

  /** The wrong passwords typed since the last right one (all of them if
      none was right). */
  function WrongSinceRight(password: string, tries: seq<Try>, enc: Encoder): nat {
    if tries == [] then 0
    else if enc.matches(tries[|tries| - 1].password, password) then 0
    else WrongSinceRight(password, tries[..|tries| - 1], enc) + 1
  }

  /** Tries that are never locked out: the error count is the wrong
      passwords since the last right one, added to the count before when
      none was right. */
  lemma {:induction false} ErrorsCount(u: User, tries: seq<Try>, enc: Encoder, token: (string, string) -> string)
    requires forall i :: 0 <= i < |tries| ==> tries[i].at > u.pwdTryTime + (LockPwdMinutes - 1) * SecondsPerMinute
    ensures var v := AfterTries(u, tries, enc, token);
      v == u.(pwdErrorTimes := v.pwdErrorTimes)
      && v.pwdErrorTimes == if exists i :: 0 <= i < |tries| && enc.matches(tries[i].password, u.password)
                            then WrongSinceRight(u.password, tries, enc)
                            else u.pwdErrorTimes + |tries|
    decreases |tries|
  {
    if tries != [] {
      var front := tries[..|tries| - 1];
      ErrorsCount(u, front, enc, token);
      assert forall i :: 0 <= i < |front| ==> front[i] == tries[i];
    }
  }

  /** From fewer than five errors, wrong passwords up to the fifth are
      each counted, whenever they are typed, and then the account is
      locked until the lock runs out. */
  lemma {:induction false} FifthErrorLocks(u: User, tries: seq<Try>, enc: Encoder, token: (string, string) -> string)
    requires 0 <= u.pwdErrorTimes && u.pwdErrorTimes + |tries| == MaxPwdErrorTimes
    requires forall i :: 0 <= i < |tries| ==> !enc.matches(tries[i].password, u.password)
    ensures var v := AfterTries(u, tries, enc, token);
      v == u.(pwdErrorTimes := MaxPwdErrorTimes)
      && forall p, now :: now <= u.pwdTryTime + (LockPwdMinutes - 1) * SecondsPerMinute ==>
           Attempt(v, p, now, enc, token).1.Err? && Attempt(v, p, now, enc, token).1.error.Locked?
    decreases |tries|
  {
    if tries != [] {
      var front := tries[..|tries| - 1];
      var w := u.(pwdErrorTimes := u.pwdErrorTimes + 1);
      FifthErrorLocks(w, tries[1..], enc, token);
      AfterTriesFirst(u, tries, enc, token);
    }
  }

  /** Running the first attempt by itself, then the rest. */
  lemma {:induction false} AfterTriesFirst(u: User, tries: seq<Try>, enc: Encoder, token: (string, string) -> string)
    requires tries != []
    ensures AfterTries(u, tries, enc, token)
         == AfterTries(Attempt(u, tries[0].password, tries[0].at, enc, token).0, tries[1..], enc, token)
    decreases |tries|
  {
    if |tries| > 1 {
      var front := tries[..|tries| - 1];
      AfterTriesFirst(u, front, enc, token);
      assert front[1..] == tries[1..][..|tries[1..]| - 1];
      assert front[0] == tries[0];
    } else {
      assert tries[..0] == [];
      assert tries[1..] == [];
    }
  }

  // ---------------------------------------------------------------------
  // Password history and change
  // ---------------------------------------------------------------------

  /** updatePasswordHistory's effect on the stored hashes, newest first:
      the new hash goes in front and only the newest three are kept. */
  function Pushed(history: seq<string>, hash: string): (r: seq<string>)
    ensures |r| == if |history| + 1 < HistorySize then |history| + 1 else HistorySize
    ensures r[0] == hash && r[1..] == history[..|r| - 1]
  {
    var all := [hash] + history;
    if |all| > HistorySize then all[..HistorySize] else all
  }

  /** Some stored hash matches the raw password. */
  predicate Reused(history: seq<string>, raw: string, enc: Encoder) {
    exists i :: 0 <= i < |history| && enc.matches(raw, history[i])
  }

  /** changePassword as a value: the user and history saved, or the
      refusal.  The old password must match, the new one must be strong
      and match none of the stored hashes. */
  function Change(u: User, history: seq<string>, oldPassword: string, newPassword: string, now: int, enc: Encoder)
    : (r: Result<(User, seq<string>), AuthError>)
    ensures r.Ok? <==> enc.matches(oldPassword, u.password) && Strong(newPassword) && !Reused(history, newPassword, enc)
    ensures r.Ok? ==>
      var hash := enc.encode(newPassword);
      r.value.0 == u.(password := hash, changedAt := Some(now))
      && 1 <= |r.value.1| <= HistorySize && |r.value.1| <= |history| + 1 && r.value.1[0] == hash
      && forall i :: 1 <= i < |r.value.1| ==> r.value.1[i] == history[i - 1]
    ensures r.Ok? ==> r.value.1 == Pushed(history, enc.encode(newPassword))
  {
    if !enc.matches(oldPassword, u.password) then Err(Refused(AuthenticationFailed, Unauthorized))
    else if IsWeakPassword(newPassword) then Err(Refused(PasswordNotStrong, Forbidden))
    else if Reused(history, newPassword, enc) then Err(Refused(PasswordReused, Forbidden))
    else
      var hash := enc.encode(newPassword);
      Ok((u.(password := hash, changedAt := Some(now)), Pushed(history, hash)))
  }

  /** Once a password is set, the next change may not go back to it (nor
      to the two before it, while they are kept). */
  lemma ChangeForbidsReuse(u: User, history: seq<string>, oldPassword: string, p: string, q: string, now: int, later: int, enc: Encoder)
    requires Change(u, history, oldPassword, p, now, enc).Ok?
    requires forall raw :: enc.matches(raw, enc.encode(raw))
    ensures var (v, h) := Change(u, history, oldPassword, p, now, enc).value;
      Change(v, h, q, p, later, enc) == if enc.matches(q, v.password) then Err(Refused(PasswordReused, Forbidden))
                                        else Err(Refused(AuthenticationFailed, Unauthorized))
  {
    var (v, h) := Change(u, history, oldPassword, p, now, enc).value;
    assert enc.matches(p, h[0]);
  }

  // ---------------------------------------------------------------------
  // register
  // ---------------------------------------------------------------------

  /** SignupRequest; the role names in the order the set yields them. */
  datatype SignupRequest = SignupRequest(username: string, password: string, roles: seq<string>)

  /** The role a requested name stands for: ADMIN in any case, otherwise
      USER. */
  function RoleFor(name: string): (r: string)
    ensures r == "ADMIN" || r == "USER"
    ensures EqualsIgnoreCase(name, "ADMIN") ==> r == "ADMIN"
    ensures !EqualsIgnoreCase(name, "ADMIN") ==> r == "USER"
  {
    if EqualsIgnoreCase(name, "ADMIN") then "ADMIN"
    else if EqualsIgnoreCase(name, "USER") then "USER"
    else "USER"
  }

  /** The roles looked up for the requested names, or the first name whose
      role is missing from the role table. */
  function RolesFor(names: seq<string>, known: set<string>): (r: Result<set<string>, AuthError>)
    ensures r.Ok? <==> forall i :: 0 <= i < |names| ==> RoleFor(names[i]) in known
    ensures r.Ok? ==> r.value == set i | 0 <= i < |names| :: RoleFor(names[i])
    ensures r.Err? ==> exists i :: 0 <= i < |names| && RoleFor(names[i]) !in known && r.error == RoleNotFound(names[i])
                                   && forall j :: 0 <= j < i ==> RoleFor(names[j]) in known
  {
    if names == [] then Ok({})
    else
      var front := names[..|names| - 1];
      var last := names[|names| - 1];
      match RolesFor(front, known)
      case Err(e) =>
        assert forall j :: 0 <= j < |front| ==> front[j] == names[j];
        Err(e)
      case Ok(roles) =>
        assert forall j :: 0 <= j < |front| ==> front[j] == names[j];
        if RoleFor(last) !in known then Err(RoleNotFound(last))
        else
          assert (set i | 0 <= i < |names| :: RoleFor(names[i])) == roles + {RoleFor(last)};
          Ok(roles + {RoleFor(last)})
  }

  /** register as a value: the user and history stored, or the refusal.
      A taken name is refused before the password's strength is looked
      at. */
  function SignUp(req: SignupRequest, taken: bool, history: seq<string>, known: set<string>, now: int, enc: Encoder)
    : (r: Result<(User, seq<string>), AuthError>)
    ensures taken ==> r == Err(Refused(UsernameAlreadyInUse, Conflict))
    ensures !taken && !Strong(req.password) ==> r == Err(Refused(PasswordNotStrong, BadRequest))
    ensures !taken && Strong(req.password) && RolesFor(req.roles, known).Err? ==> r == Err(RolesFor(req.roles, known).error)
    ensures r.Ok? <==> !taken && Strong(req.password) && RolesFor(req.roles, known).Ok?
    ensures r.Ok? ==>
      var (u, h) := r.value;
      u.username == req.username && u.pwdErrorTimes == 0 && u.password == enc.encode(req.password)
      && u.roles == RolesFor(req.roles, known).value && u.roles <= {"ADMIN", "USER"}
      && u.pwdTryTime == now && u.changedAt == Some(now)
      && h == Pushed(history, enc.encode(req.password))
  {
    if taken then Err(Refused(UsernameAlreadyInUse, Conflict))
    else if IsWeakPassword(req.password) then Err(Refused(PasswordNotStrong, BadRequest))
    else
      match RolesFor(req.roles, known)
      case Err(e) => Err(e)
      case Ok(roles) =>
        var hash := enc.encode(req.password);
        Ok((User(req.username, enc.encode(req.password), roles, 0, now, Some(now)), Pushed(history, hash)))
  }

  // ---------------------------------------------------------------------
  // The service
  // ---------------------------------------------------------------------

  class AuthService {
    var users: map<string, User>
    /** The stored password hashes per user, newest first. */
    var histories: map<string, seq<string>>
    const encoder: Encoder
    const token: (string, string) -> string
    /** The names in the role table. */
    const knownRoles: set<string>

    constructor(users: map<string, User>, histories: map<string, seq<string>>,
                encoder: Encoder, token: (string, string) -> string, knownRoles: set<string>)
      ensures this.users == users && this.histories == histories
      ensures this.encoder == encoder && this.token == token && this.knownRoles == knownRoles
    {
      this.users := users;
      this.histories := histories;
      this.encoder := encoder;
      this.token := token;
      this.knownRoles := knownRoles;
    }

    /** Users are stored under their own names. */
    ghost predicate Valid()
      reads this
    {
      forall name :: name in users ==> users[name].username == name
    }

    function HistoryOf(username: string): seq<string>
      reads this
    {
      if username in histories then histories[username] else []
    }

    /** authenticate: an unknown user is refused; otherwise the attempt is
      made and the user saved as it leaves them. */
    method Authenticate(username: string, password: string, now: int) returns (r: Result<Response, AuthError>)
      requires Valid()
      modifies this`users
      ensures Valid()
      ensures username !in old(users) ==> r == Err(Refused(UserNotExist, NotFound)) && users == old(users)
      ensures username in old(users) ==>
        var (u, answer) := Attempt(old(users[username]), password, now, encoder, token);
        users == old(users)[username := u] && r == answer
    {
      if username !in users {
        return Err(Refused(UserNotExist, NotFound));
      }
      var user := users[username];
      if !CanTryPassword(user.pwdErrorTimes, user.pwdTryTime, now) {
        return Err(Locked(RemainingLockMinutes(user.pwdTryTime, now)));
      }
      if !encoder.matches(password, user.password) {
        users := users[username := user.(pwdErrorTimes := user.pwdErrorTimes + 1)];
        return Err(Refused(AuthenticationFailed, Unauthorized));
      }
      users := users[username := user.(pwdErrorTimes := 0)];
      var isAdmin := "ADMIN" in user.roles;
      var isUser := "USER" in user.roles;
      if !isAdmin && !isUser {
        return Err(Refused(InvalidRole, BadRequest));
      }
      var scope := "";
      var outcome := AuthenticationSuccess;
      if IsPasswordExpired(user.changedAt, now) {
        scope := "PASSWORD_RESET";
        outcome := PasswordExpired;
      }
      return Ok(Response(username, token(username, scope), outcome));
    }

    /** updatePasswordHistory: store the hash as the newest and drop all
      but the newest three. */
    method UpdatePasswordHistory(username: string, hash: string) returns (r: Option<AuthError>)
      modifies this`histories
      ensures username !in users ==> r == Some(Refused(UserNotExist, NotFound)) && histories == old(histories)
      ensures username in users ==> r == None && histories == old(histories)[username := Pushed(old(HistoryOf(username)), hash)]
    {
      if username !in users {
        return Some(Refused(UserNotExist, NotFound));
      }
      var all := [hash] + HistoryOf(username);
      if |all| > HistorySize {
        all := all[..HistorySize];
      }
      histories := histories[username := all];
      return None;
    }

    /** changePassword: check the old password, the new one's strength and
      each stored hash in turn, then save the new hash with the time and
      record it in the history. */
    method ChangePassword(username: string, oldPassword: string, newPassword: string, now: int)
      returns (r: Option<AuthError>)
      requires Valid()
      modifies this`users, this`histories
      ensures Valid()
      ensures username !in old(users) ==> r == Some(Refused(UserNotExist, NotFound)) && unchanged(this)
      ensures username in old(users) ==>
        match Change(old(users[username]), old(HistoryOf(username)), oldPassword, newPassword, now, encoder)
        case Err(e) => r == Some(e) && unchanged(this)
        case Ok((u, h)) => r == None && users == old(users)[username := u] && histories == old(histories)[username := h]
    {
      if username !in users {
        return Some(Refused(UserNotExist, NotFound));
      }
      var user := users[username];
      if !encoder.matches(oldPassword, user.password) {
        return Some(Refused(AuthenticationFailed, Unauthorized));
      }
      if IsWeakPassword(newPassword) {
        return Some(Refused(PasswordNotStrong, Forbidden));
      }
      var lastPasswords := HistoryOf(username);
      var newPasswordHash := encoder.encode(newPassword);
      var i := 0;
      while i < |lastPasswords|
        invariant 0 <= i <= |lastPasswords|
        invariant forall j :: 0 <= j < i ==> !encoder.matches(newPassword, lastPasswords[j])
      {
        if encoder.matches(newPassword, lastPasswords[i]) {
          return Some(Refused(PasswordReused, Forbidden));
        }
        i := i + 1;
      }
      users := users[username := user.(password := newPasswordHash, changedAt := Some(now))];
      r := UpdatePasswordHistory(username, newPasswordHash);
    }

    /** register: refuse a taken name, then a weak password, then a role
      missing from the role table; store the user and the first history
      entry and answer with the user's path. */
    method Register(req: SignupRequest, now: int) returns (r: Result<string, AuthError>)
      requires Valid()
      modifies this`users, this`histories
      ensures Valid()
      ensures match SignUp(req, req.username in old(users), old(HistoryOf(req.username)), knownRoles, now, encoder)
        case Err(e) => r == Err(e) && unchanged(this)
        case Ok((u, h)) => r == Ok("/users/" + req.username)
                           && users == old(users)[req.username := u] && histories == old(histories)[req.username := h]
    {
      if req.username in users {
        return Err(Refused(UsernameAlreadyInUse, Conflict));
      }
      if IsWeakPassword(req.password) {
        return Err(Refused(PasswordNotStrong, BadRequest));
      }
      var roleSet: set<string> := {};
      var k := 0;
      while k < |req.roles|
        invariant 0 <= k <= |req.roles|
        invariant RolesFor(req.roles[..k], knownRoles) == Ok(roleSet)
      {
        var name := RoleFor(req.roles[k]);
        assert req.roles[..k + 1][..k] == req.roles[..k];
        if name !in knownRoles {
          assert RolesFor(req.roles[..k + 1], knownRoles) == Err(RoleNotFound(req.roles[k]));
          RolesForPrefix(req.roles, k + 1, knownRoles);
          return Err(RoleNotFound(req.roles[k]));
        }
        roleSet := roleSet + {name};
        k := k + 1;
      }
      assert req.roles[..k] == req.roles;
      var password := encoder.encode(req.password);
      users := users[req.username := User(req.username, encoder.encode(req.password), roleSet, 0, now, Some(now))];
      var _ := UpdatePasswordHistory(req.username, password);
      return Ok("/users/" + req.username);
    }
  }

  /** A name whose role is missing stops the lookup, whatever follows. */
  lemma {:induction false} RolesForPrefix(names: seq<string>, k: nat, known: set<string>)
    requires 0 < k <= |names| && RolesFor(names[..k], known).Err?
    ensures RolesFor(names, known) == RolesFor(names[..k], known)
    decreases |names|
  {
    if k < |names| {
      var front := names[..|names| - 1];
      assert front[..k] == names[..k];
      RolesForPrefix(front, k, known);
    } else {
      assert names[..k] == names;
    }
  }
}
