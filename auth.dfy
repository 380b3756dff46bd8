/**
 * The sign-up and log-in handlers of the chat server
 * (server/controllers/auth.js).
 *
 * The hosted user directory is a sequence of user records in the order a query
 * returns them. Password hashing and token minting are functions fixed when the
 * server starts, the random user id is a parameter, and the call that throws
 * (if any) is a parameter too.
 */
module Auth {
  import opened Common

  const InvalidPhone: string :=
    "Invalid phone number. It must contain only digits and be at least 11 characters long."
  const UsernameTaken: string := "Username already exists"
  const PhoneTaken: string := "Phone number already registered"
  const SignupFailed: string := "Signup failed. Please try again."
  const UserNotFound: string := "User not found"
  const IncorrectPassword: string := "Incorrect password"
  const LoginFailed: string := "Login failed. Please try again."

  /** The shortest accepted phone number. */
  const MinPhoneDigits: nat := 11

  // ---------------------------------------------------------------------
  // Phone numbers
  // ---------------------------------------------------------------------

  /** How many ASCII digits `s` starts with. */
  function DigitRun(s: string): (n: nat)
    ensures n <= |s|
    ensures forall i :: 0 <= i < n ==> IsDigit(s[i])
    ensures n < |s| ==> !IsDigit(s[n])
  {
    if s == [] || !IsDigit(s[0]) then 0
    else
      var n := 1 + DigitRun(s[1..]);
      assert forall i :: 1 <= i < n ==> s[i] == s[1..][i - 1];
      n
  }

  /** `isValidPhoneNumber`: the pattern `^\d{11,}$`, matched against the whole string. */
  function IsValidPhoneNumber(number: string): (r: bool)
    ensures r <==> |number| >= MinPhoneDigits && forall i :: 0 <= i < |number| ==> IsDigit(number[i])
  {
    var n := DigitRun(number);
    n == |number| && n >= MinPhoneDigits
  }

  /** Eleven digits pass; ten digits, a leading `+`, a space or a trailing letter do not. */
  lemma PhoneExamples()
    ensures IsValidPhoneNumber("07123456789")
    ensures !IsValidPhoneNumber("0712345678")
    ensures !IsValidPhoneNumber("+4471234567")
    ensures !IsValidPhoneNumber("0712 345678")
    ensures !IsValidPhoneNumber("0712345678x")
  {
    var ok := "07123456789";
    assert forall i :: 0 <= i < |ok| ==> IsDigit(ok[i]);
    assert !IsDigit("+4471234567"[0]);
    assert !IsDigit("0712 345678"[4]);
    assert !IsDigit("0712345678x"[10]);
  }

  // ---------------------------------------------------------------------
  // The user directory
  // ---------------------------------------------------------------------

  /**
   * A stored user. A text field the record lacks is the empty string; the hash
   * is optional because a record without one makes `bcrypt.compare` throw,
   * which log-in answers differently from a wrong password.
   */
  datatype User = User(id: string, name: string, fullName: string, hashedPassword: Option<string>,
                       phoneNumber: string, avatarURL: string)

  /** The two queries the handlers send. */
  datatype Query =
    | ByName(name: string)
    | ByNameOrPhone(name: string, phoneNumber: string)

  predicate Matches(q: Query, u: User) {
    match q
    case ByName(name) => u.name == name
    case ByNameOrPhone(name, phone) => u.name == name || u.phoneNumber == phone
  }

  /** `queryUsers`: the matching users, in directory order. */
  function QueryUsers(users: seq<User>, q: Query): (r: seq<User>)
    ensures forall u :: u in r <==> u in users && Matches(q, u)
    ensures |r| <= |users|
  {
    if users == [] then []
    else
      var rest := QueryUsers(users[1..], q);
      assert forall u :: u in users <==> u == users[0] || u in users[1..];
      if Matches(q, users[0]) then [users[0]] + rest else rest
  }

  /** The first user a query returns is the earliest match in the directory. */
  lemma {:induction false} QueryFirst(users: seq<User>, q: Query, i: nat)
    requires i < |users| && Matches(q, users[i])
    requires forall j :: 0 <= j < i ==> !Matches(q, users[j])
    ensures QueryUsers(users, q) != [] && QueryUsers(users, q)[0] == users[i]
  {
    if i > 0 {
      QueryFirst(users[1..], q, i - 1);
    }
  }

  /** `upsertUser`: the record replaces the one with its id, or is added at the end. */
  function Upsert(users: seq<User>, u: User): (r: seq<User>)
    ensures u in r
    ensures forall v :: v in r ==> v == u || (v in users && v.id != u.id)
    ensures forall v :: v in users && v.id != u.id ==> v in r
    ensures (forall v :: v in users ==> v.id != u.id) ==> r == users + [u]
  {
    if exists i :: 0 <= i < |users| && users[i].id == u.id then
      var r := seq(|users|, i requires 0 <= i < |users| => if users[i].id == u.id then u else users[i]);
      assert u in r by {
        var k :| 0 <= k < |users| && users[k].id == u.id;
        assert r[k] == u;
      }
      assert forall v :: v in users && v.id != u.id ==> v in r by {
        forall v | v in users && v.id != u.id ensures v in r {
          var k :| 0 <= k < |users| && users[k] == v;
          assert r[k] == v;
        }
      }
      r
    else users + [u]
  }

  /** A query that matches nobody returns nothing. */
  lemma {:induction false} QueryNone(users: seq<User>, q: Query)
    requires forall i :: 0 <= i < |users| ==> !Matches(q, users[i])
    ensures QueryUsers(users, q) == []
  {
    if users != [] {
      QueryNone(users[1..], q);
    }
  }

  /** No two users share an id, a name or a phone number. */
  predicate Unique(users: seq<User>) {
    forall i, j :: 0 <= i < j < |users| ==>
      users[i].id != users[j].id && users[i].name != users[j].name && users[i].phoneNumber != users[j].phoneNumber
  }

  // ---------------------------------------------------------------------
  // Requests, responses and the handlers' outcomes
  // ---------------------------------------------------------------------

  datatype SignupRequest = SignupRequest(fullName: string, username: string, password: string,
                                         phoneNumber: string, avatarURL: string)

  datatype Body =
    | Message(message: string)
    | SignedUp(token: string, fullName: string, username: string, userId: string,
               hashedPassword: string, phoneNumber: string, avatarURL: string)
    | LoggedIn(token: string, fullName: string, username: string, userId: string, avatarURL: string)

  datatype Response = Response(status: nat, body: Body)

  /** The call inside a handler's `try` that throws, if any. */
  datatype Fault =
    | NoFault
    | SetupFails      // creating the server or chat client
    | QueryFails      // queryUsers
    | HashFails       // bcrypt.hash
    | CompareFails    // bcrypt.compare
    | TokenFails      // createUserToken
    | UpsertFails     // upsertUser

  /** A handler's response and the directory it leaves behind. */
  datatype Handled = Handled(response: Response, users: seq<User>)

  /** The record sign-up stores. */
  function NewUser(req: SignupRequest, userId: string, hashedPassword: string): User {
    User(userId, req.username, req.fullName, Some(hashedPassword), req.phoneNumber, req.avatarURL)
  }

  /** The conflict message: a taken name wins over a taken phone number. */
  function ConflictMessage(found: seq<User>, username: string): string {
    if exists i :: 0 <= i < |found| && found[i].name == username then UsernameTaken else PhoneTaken
  }

  /** What `signup` answers and stores. */
  function SignupOutcome(users: seq<User>, req: SignupRequest, userId: string, fault: Fault,
                         hash: string -> string, tokenFor: string -> string): Handled
  {
    if !IsValidPhoneNumber(req.phoneNumber) then Handled(Response(400, Message(InvalidPhone)), users)
    else if fault == SetupFails || fault == QueryFails then Handled(Response(500, Message(SignupFailed)), users)
    else
      var found := QueryUsers(users, ByNameOrPhone(req.username, req.phoneNumber));
      if |found| > 0 then Handled(Response(400, Message(ConflictMessage(found, req.username))), users)
      else if fault == HashFails || fault == TokenFails || fault == UpsertFails then
        Handled(Response(500, Message(SignupFailed)), users)
      else
        var hashed := hash(req.password);
        Handled(Response(200, SignedUp(tokenFor(userId), req.fullName, req.username, userId, hashed,
                                       req.phoneNumber, req.avatarURL)),
                Upsert(users, NewUser(req, userId, hashed)))
  }

  /** What `login` answers; the password is right when it hashes to the stored hash. */
  function LoginOutcome(users: seq<User>, username: string, password: string, fault: Fault,
                        hash: string -> string, tokenFor: string -> string): Response
  {
    if fault == SetupFails || fault == QueryFails then Response(500, Message(LoginFailed))
    else
      var found := QueryUsers(users, ByName(username));
      if |found| == 0 then Response(400, Message(UserNotFound))
      else
        var user := found[0];
        if fault == CompareFails || user.hashedPassword == None then Response(500, Message(LoginFailed))
        else if Some(hash(password)) != user.hashedPassword then Response(401, Message(IncorrectPassword))
        else if fault == TokenFails then Response(500, Message(LoginFailed))
        else Response(200, LoggedIn(tokenFor(user.id), user.fullName, username, user.id, user.avatarURL))
  }

  // ---------------------------------------------------------------------
  // Properties of the handlers
  // ---------------------------------------------------------------------

  /** An invalid phone number is refused before the directory is asked anything. */
  lemma SignupChecksPhoneFirst(users: seq<User>, req: SignupRequest, userId: string, fault: Fault,
                               hash: string -> string, tokenFor: string -> string)
    requires !IsValidPhoneNumber(req.phoneNumber)
    ensures SignupOutcome(users, req, userId, fault, hash, tokenFor) == Handled(Response(400, Message(InvalidPhone)), users)
  {
  }

  /**
   * Sign-up is refused when some user has the name or the phone number; the
   * message names the username whenever it is taken and the phone number only
   * otherwise, and nothing is stored.
   */
  lemma SignupRefusesDuplicates(users: seq<User>, req: SignupRequest, userId: string, fault: Fault,
                                hash: string -> string, tokenFor: string -> string)
    requires IsValidPhoneNumber(req.phoneNumber) && fault != SetupFails && fault != QueryFails
    ensures var h := SignupOutcome(users, req, userId, fault, hash, tokenFor);
      && ((exists i :: 0 <= i < |users| && users[i].name == req.username) ==>
            h == Handled(Response(400, Message(UsernameTaken)), users))
      && ((forall i :: 0 <= i < |users| ==> users[i].name != req.username) &&
          (exists i :: 0 <= i < |users| && users[i].phoneNumber == req.phoneNumber) ==>
            h == Handled(Response(400, Message(PhoneTaken)), users))
  {
    var q := ByNameOrPhone(req.username, req.phoneNumber);
    var found := QueryUsers(users, q);
    if i :| 0 <= i < |users| && users[i].name == req.username {
      assert users[i] in found;
      var k :| 0 <= k < |found| && found[k] == users[i];
    } else if i :| 0 <= i < |users| && users[i].phoneNumber == req.phoneNumber {
      assert users[i] in found;
      forall k | 0 <= k < |found| ensures found[k].name != req.username {
        assert found[k] in users;
      }
    }
  }

  /**
   * A sign-up that passes the checks and meets no failure stores exactly one
   * new record (the given id, the username as name, the hash of the password,
   * the phone number) and answers 200 with that id and the user's token.
   */
  lemma SignupStoresOneUser(users: seq<User>, req: SignupRequest, userId: string,
                            hash: string -> string, tokenFor: string -> string)
    requires IsValidPhoneNumber(req.phoneNumber)
    requires forall i :: 0 <= i < |users| ==> users[i].name != req.username && users[i].phoneNumber != req.phoneNumber
    requires forall i :: 0 <= i < |users| ==> users[i].id != userId
    ensures var h := SignupOutcome(users, req, userId, NoFault, hash, tokenFor);
      && h.users == users + [User(userId, req.username, req.fullName, Some(hash(req.password)), req.phoneNumber, req.avatarURL)]
      && h.response.status == 200
      && h.response.body.SignedUp? && h.response.body.userId == userId
      && h.response.body.token == tokenFor(userId)
      && h.response.body.hashedPassword == hash(req.password)
  {
    QueryNone(users, ByNameOrPhone(req.username, req.phoneNumber));
  }

  /**
   * A call inside the `try` that throws stores nothing. Set-up and the query
   * throw before the duplicate check, so with a valid phone number they answer
   * 500 even for a taken name or phone; the later calls answer 500 once that
   * check has passed.
   */
  lemma SignupFailureStoresNothing(users: seq<User>, req: SignupRequest, userId: string, fault: Fault,
                                   hash: string -> string, tokenFor: string -> string)
    requires fault != NoFault && fault != CompareFails
    ensures var h := SignupOutcome(users, req, userId, fault, hash, tokenFor);
      var checked := IsValidPhoneNumber(req.phoneNumber)
                     && (fault in {SetupFails, QueryFails}
                         || QueryUsers(users, ByNameOrPhone(req.username, req.phoneNumber)) == []);
      && h.users == users
      && h.response.status in {400, 500}
      && (checked ==> h.response == Response(500, Message(SignupFailed)))
  {
  }

  /** Sign-up keeps names, phone numbers and ids unique in the directory. */
  lemma SignupKeepsUnique(users: seq<User>, req: SignupRequest, userId: string, fault: Fault,
                          hash: string -> string, tokenFor: string -> string)
    requires Unique(users)
    ensures Unique(SignupOutcome(users, req, userId, fault, hash, tokenFor).users)
  {
    var h := SignupOutcome(users, req, userId, fault, hash, tokenFor);
    if h.users != users {
      var u := NewUser(req, userId, hash(req.password));
      var found := QueryUsers(users, ByNameOrPhone(req.username, req.phoneNumber));
      assert found == [];
      assert h.users == Upsert(users, u);
      forall v | v in users ensures v.name != u.name && v.phoneNumber != u.phoneNumber {
        assert v !in found;
      }
      UpsertKeepsUnique(users, u);
    }
  }

  lemma UpsertKeepsUnique(users: seq<User>, u: User)
    requires Unique(users)
    requires forall v :: v in users ==> v.name != u.name && v.phoneNumber != u.phoneNumber
    ensures Unique(Upsert(users, u))
  {
    var r := Upsert(users, u);
    forall i, j | 0 <= i < j < |r|
      ensures r[i].id != r[j].id && r[i].name != r[j].name && r[i].phoneNumber != r[j].phoneNumber
    {
      if exists k :: 0 <= k < |users| && users[k].id == u.id {
        assert |r| == |users|;
        assert r[i] == (if users[i].id == u.id then u else users[i]);
        assert r[j] == (if users[j].id == u.id then u else users[j]);
        assert users[i] in users && users[j] in users;
      } else {
        assert r == users + [u];
        if j < |users| {
          assert r[i] == users[i] && r[j] == users[j];
        } else {
          assert r[i] == users[i] && users[i] in users;
        }
      }
    }
  }

  /** Log-in with a name nobody has answers 400 "User not found". */
  lemma LoginUnknownUser(users: seq<User>, username: string, password: string, fault: Fault,
                         hash: string -> string, tokenFor: string -> string)
    requires fault != SetupFails && fault != QueryFails
    requires forall i :: 0 <= i < |users| ==> users[i].name != username
    ensures LoginOutcome(users, username, password, fault, hash, tokenFor) == Response(400, Message(UserNotFound))
  {
    QueryNone(users, ByName(username));
  }

  /**
   * Log-in checks the password of the earliest user with that name: a wrong
   * password answers 401, a right one 200 with a token for that user's id, and
   * a record without a hash 500.
   */
  lemma LoginChecksFirstMatch(users: seq<User>, username: string, password: string, i: nat,
                              hash: string -> string, tokenFor: string -> string)
    requires i < |users| && users[i].name == username
    requires forall j :: 0 <= j < i ==> users[j].name != username
    ensures var r := LoginOutcome(users, username, password, NoFault, hash, tokenFor);
      && (r.status == 500 <==> users[i].hashedPassword == None)
      && (r.status == 500 ==> r.body == Message(LoginFailed))
      && (r.status == 401 <==> users[i].hashedPassword.Some? && hash(password) != users[i].hashedPassword.value)
      && (r.status == 401 ==> r.body == Message(IncorrectPassword))
      && (r.status != 401 && r.status != 500 ==> r == Response(200, LoggedIn(tokenFor(users[i].id), users[i].fullName, username,
                                                        users[i].id, users[i].avatarURL)))
  {
    QueryFirst(users, ByName(username), i);
  }

  /**
   * Every call inside log-in's `try` that throws answers 500 "Login failed.
   * Please try again.": setting up or querying always, the password check once
   * a user is found, the token once the password is right.
   */
  lemma LoginFailureAnswers500(users: seq<User>, username: string, password: string, fault: Fault,
                               hash: string -> string, tokenFor: string -> string)
    ensures var r := LoginOutcome(users, username, password, fault, hash, tokenFor);
      var found := QueryUsers(users, ByName(username));
      && (fault == SetupFails || fault == QueryFails ==> r == Response(500, Message(LoginFailed)))
      && (fault == CompareFails && found != [] ==> r == Response(500, Message(LoginFailed)))
      && (fault == TokenFails && found != [] && found[0].hashedPassword == Some(hash(password)) ==>
            r == Response(500, Message(LoginFailed)))
      && (r.status == 500 <==>
            fault in {SetupFails, QueryFails}
            || (found != [] && (fault == CompareFails || found[0].hashedPassword == None
                                || (fault == TokenFails && found[0].hashedPassword == Some(hash(password))))))
      && (r.status == 500 ==> r.body == Message(LoginFailed))
  {
  }

  /** A user who has just signed up can log in with the same name and password. */
  lemma SignupThenLogin(users: seq<User>, req: SignupRequest, userId: string,
                        hash: string -> string, tokenFor: string -> string)
    requires SignupOutcome(users, req, userId, NoFault, hash, tokenFor).response.status == 200
    ensures var after := SignupOutcome(users, req, userId, NoFault, hash, tokenFor).users;
      LoginOutcome(after, req.username, req.password, NoFault, hash, tokenFor)
        == Response(200, LoggedIn(tokenFor(userId), req.fullName, req.username, userId, req.avatarURL))
  {
    var u := NewUser(req, userId, hash(req.password));
    var found := QueryUsers(users, ByNameOrPhone(req.username, req.phoneNumber));
    assert found == [];
    var after := Upsert(users, u);
    var named := QueryUsers(after, ByName(req.username));
    assert forall v :: v in users ==> v !in found;
    assert u in named;
    assert named[0] in after;
  }

  // ---------------------------------------------------------------------
  // The server
  // ---------------------------------------------------------------------

  /**
   * The server's view of the hosted user directory. `hash` stands for bcrypt
   * with the salt it chose and `tokenFor` for the token the API secret signs.
   */
  class AuthServer {
    var users: seq<User>
    const hash: string -> string
    const tokenFor: string -> string

    constructor (users: seq<User>, hash: string -> string, tokenFor: string -> string)
      ensures this.users == users && this.hash == hash && this.tokenFor == tokenFor
    {
      this.users := users;
      this.hash := hash;
      this.tokenFor := tokenFor;
    }

    /** `signup`. */
    method Signup(req: SignupRequest, userId: string, fault: Fault) returns (res: Response)
      modifies this`users
      ensures Handled(res, users) == SignupOutcome(old(users), req, userId, fault, hash, tokenFor)
    {
      if !IsValidPhoneNumber(req.phoneNumber) {
        return Response(400, Message(InvalidPhone));
      }
      if fault == SetupFails || fault == QueryFails {
        return Response(500, Message(SignupFailed));
      }
      var found := QueryUsers(users, ByNameOrPhone(req.username, req.phoneNumber));
      if |found| > 0 {
        var isUsernameTaken := exists i :: 0 <= i < |found| && found[i].name == req.username;
        return Response(400, Message(if isUsernameTaken then UsernameTaken else PhoneTaken));
      }
      if fault == HashFails {
        return Response(500, Message(SignupFailed));
      }
      var hashedPassword := hash(req.password);
      if fault == TokenFails {
        return Response(500, Message(SignupFailed));
      }
      var token := tokenFor(userId);
      if fault == UpsertFails {
        return Response(500, Message(SignupFailed));
      }
      users := Upsert(users, NewUser(req, userId, hashedPassword));
      res := Response(200, SignedUp(token, req.fullName, req.username, userId, hashedPassword,
                                    req.phoneNumber, req.avatarURL));
    }

    /** `login`; it only reads the directory. */
    method Login(username: string, password: string, fault: Fault) returns (res: Response)
      ensures res == LoginOutcome(users, username, password, fault, hash, tokenFor)
      ensures res.status in {200, 400, 401, 500}
    {
      if fault == SetupFails || fault == QueryFails {
        return Response(500, Message(LoginFailed));
      }
      var found := QueryUsers(users, ByName(username));
      if |found| == 0 {
        return Response(400, Message(UserNotFound));
      }
      var user := found[0];
      if fault == CompareFails || user.hashedPassword == None {
        return Response(500, Message(LoginFailed));
      }
      var isPasswordCorrect := hash(password) == user.hashedPassword.value;
      if !isPasswordCorrect {
        return Response(401, Message(IncorrectPassword));
      }
      if fault == TokenFails {
        return Response(500, Message(LoginFailed));
      }
      var token := tokenFor(user.id);
      res := Response(200, LoggedIn(token, user.fullName, username, user.id, user.avatarURL));
    }
  }
}
