/**
 * The account rules of the users handlers: the guards of registration and
 * login, in the order the handlers apply them, and the password being kept
 * only as a hash. Hashing and verification are the hashing library's and
 * come in as functions.
 */
module AccountRules {
  import opened Common
  import opened Models

  /** A one-way password hash (the library salts it; only its result matters). */
  type Hash = string -> string
  /** The library's check of a plaintext password against a stored hash. */
  type Verify = (string, string) -> bool

  /** Whether some stored user already has this email. */
  predicate EmailTaken(users: seq<User>, email: string) {
    Find(users, UserEmail, email).Some?
  }

  /** No two stored users share an email. */
  ghost predicate UniqueEmails(users: seq<User>) {
    forall i, j :: 0 <= i < j < |users| ==> users[i].email != users[j].email
  }

  /**
   * The record registration saves, or why it refuses: a taken email first,
   * then an empty email or password. The saved record holds the hash of the
   * password, never the password itself, and has no id yet.
   */
  function Register(users: seq<User>, email: string, password: string, hash: Hash): (r: Result<User>)
    ensures (exists u :: u in users && u.email == email) ==> r == Failure(BadRequest(UserAlreadyExists))
    ensures (forall u :: u in users ==> u.email != email) && (email == [] || password == [])
            ==> r == Failure(BadRequest(EmptyUserData))
    ensures r.Success? <==> (forall u :: u in users ==> u.email != email) && email != [] && password != []
    ensures r.Success? ==> r.value.email == email && r.value.password == hash(password) && r.value.id.None?
  {
    if EmailTaken(users, email) then Failure(BadRequest(UserAlreadyExists))
    else if !(|email| > 0 && |password| > 0) then Failure(BadRequest(EmptyUserData))
    else Success(User(None, email, hash(password)))
  }

  /**
   * The login check: an empty email or password first, then an unknown
   * email, then a password the stored hash does not verify. Success is 200.
   */
  function Login(users: seq<User>, email: string, password: string, verify: Verify): (r: Result<HttpStatus>)
    ensures email == [] || password == [] ==> r == Failure(BadRequest(EmptyUserData))
    ensures email != [] && password != [] && (forall u :: u in users ==> u.email != email)
            ==> r == Failure(BadRequest(UnknownUser))
    ensures email != [] && password != [] && Find(users, UserEmail, email).Some?
            && !verify(password, Find(users, UserEmail, email).value.password)
            ==> r == Failure(BadRequest(WrongPassword))
    ensures r.Success? ==> r.value == Ok
    ensures r.Success? <==> email != [] && password != [] && Find(users, UserEmail, email).Some?
                            && verify(password, Find(users, UserEmail, email).value.password)
  {
    var current := Find(users, UserEmail, email);
    if !(|email| > 0 && |password| > 0) then Failure(BadRequest(EmptyUserData))
    else if current.None? then Failure(BadRequest(UnknownUser))
    else if !verify(password, current.value.password) then Failure(BadRequest(WrongPassword))
    else Success(Ok)
  }

  /** Registration keeps emails unique once the new user is stored under an id. */
  lemma RegisterKeepsEmailsUnique(users: seq<User>, email: string, password: string, hash: Hash, id: Uuid)
    requires UniqueEmails(users)
    requires Register(users, email, password, hash).Success?
    ensures UniqueEmails(users + [Register(users, email, password, hash).value.(id := Some(id))])
  {
    var u := Register(users, email, password, hash).value.(id := Some(id));
    var users' := users + [u];
    forall i, j | 0 <= i < j < |users'| ensures users'[i].email != users'[j].email {
      if j == |users| {
        assert users'[i] in users;
      }
    }
  }

  /**
   * Registering and then logging in with the same credentials succeeds,
   * provided the library verifies a password against its own hash.
   */
  lemma RegisterThenLogin(users: seq<User>, email: string, password: string, hash: Hash, verify: Verify, id: Uuid)
    requires forall p :: verify(p, hash(p))
    requires Register(users, email, password, hash).Success?
    ensures Login(users + [Register(users, email, password, hash).value.(id := Some(id))], email, password, verify)
            == Success(Ok)
  {
    var u := Register(users, email, password, hash).value.(id := Some(id));
    var users' := users + [u];
    assert users'[|users|] == u;
    assert Find(users', UserEmail, email) == Some(u);
  }

  /** Whoever registered an email, a password the hash does not verify is refused. */
  lemma LoginRefusesWrongPassword(users: seq<User>, email: string, password: string, verify: Verify)
    requires forall u :: u in users && u.email == email ==> !verify(password, u.password)
    ensures Login(users, email, password, verify).Failure?
  {
  }

  /** One listing entry per user: the email with the (optional) id. */
  datatype EmailEntry = EmailEntry(email: string, id: Option<Uuid>)

  /** The email listing, one entry per stored user, in stored order. */
  function EmailListing(users: seq<User>): (r: seq<EmailEntry>)
    ensures |r| == |users|
    ensures forall i :: 0 <= i < |users| ==> r[i].email == users[i].email && r[i].id == users[i].id
    decreases |users|
  {
    if users == [] then []
    else [EmailEntry(users[0].email, users[0].id)] + EmailListing(users[1..])
  }
}
