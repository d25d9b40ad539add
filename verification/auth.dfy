/** Users and the session (services/authService.ts). The stored user list
    and the stored session record become the fields of `AuthStore`. The
    random customer ids come from a supply of twelve-draw attempts, tried in
    order until one yields an id no user has. */
module AuthService {
  import opened Types
  import Seqs
  import Utils

  datatype AuthResult = AuthResult(success: bool, message: string, user: Option<User>)

  const ADMIN_CODE: string := "nethmina123admin"
  const ADMIN_USER: User := User("ADMIN001", "admin@nethmina.com", "00000000000", None, Admin, Some("Administrator"))

  const EMAIL_TAKEN: string := "Email already registered."
  const PHONE_TAKEN: string := "Phone number already registered."
  const REGISTERED: string := "Registration successful!"
  const WELCOME_ADMIN: string := "Welcome Admin"
  const LOGGED_IN: string := "Login successful!"
  const BAD_CREDENTIALS: string := "Invalid credentials."

  predicate EmailTaken(users: seq<User>, email: string) {
    exists i :: 0 <= i < |users| && users[i].email == email
  }

  predicate PhoneTaken(users: seq<User>, phone: string) {
    exists i :: 0 <= i < |users| && users[i].phone == phone
  }

  /** `users.some(u => u.id === id)`. */
  predicate IdTaken(users: seq<User>, id: string) {
    exists i :: 0 <= i < |users| && users[i].id == id
  }

  /** No two users share an id, an email or a phone number. */
  predicate DistinctIdentities(users: seq<User>) {
    forall i, j :: 0 <= i < j < |users| ==>
      users[i].id != users[j].id && users[i].email != users[j].email && users[i].phone != users[j].phone
  }

  /** Each attempt is the twelve draws of one `generateCustomerId` call. */
  predicate WellFormedAttempts(attempts: seq<seq<Utils.CharIndex>>) {
    forall k :: 0 <= k < |attempts| ==> |attempts[k]| == 12
  }

  /** Some attempt yields an id that nobody has: the regeneration loop ends. */
  predicate SomeAttemptFresh(users: seq<User>, attempts: seq<seq<Utils.CharIndex>>)
    requires WellFormedAttempts(attempts)
  {
    exists k :: 0 <= k < |attempts| && !IdTaken(users, Utils.CustomerIdOf(attempts[k]))
  }

  /** The id the regeneration loop settles on: that of the first attempt
      whose id is unused. */
  function FreshId(users: seq<User>, attempts: seq<seq<Utils.CharIndex>>): (id: string)
    requires WellFormedAttempts(attempts) && SomeAttemptFresh(users, attempts)
    ensures !IdTaken(users, id)
  {
    var k := Seqs.FirstIndex((a: seq<Utils.CharIndex>) => |a| == 12 && !IdTaken(users, Utils.CustomerIdOf(a)), attempts);
    Utils.CustomerIdOf(attempts[k])
  }

  /** The user registration creates. */
  function NewCustomer(id: string, email: string, phone: string, password: string): User {
    User(id, email, phone, Some(password), Customer, None)
  }

  /** Appending a customer whose id, email and phone are all unused keeps
      the identities distinct. */
  lemma {:induction false} AppendKeepsDistinct(users: seq<User>, u: User)
    requires DistinctIdentities(users)
    requires !IdTaken(users, u.id) && !EmailTaken(users, u.email) && !PhoneTaken(users, u.phone)
    ensures DistinctIdentities(users + [u])
  {
    var all := users + [u];
    forall i, j | 0 <= i < j < |all|
      ensures all[i].id != all[j].id && all[i].email != all[j].email && all[i].phone != all[j].phone
    {
      if j == |users| {
        assert all[i] == users[i] && all[j] == u;
      } else {
        assert all[i] == users[i] && all[j] == users[j];
      }
    }
  }

  /** `users.find(u => (u.email === identifier || u.phone === identifier)
      && u.password === password)`. */
  function FindByCredentials(users: seq<User>, identifier: string, password: string): (r: Option<User>)
  {
    var k := Seqs.FirstIndex((u: User) => (u.email == identifier || u.phone == identifier) && u.password == Some(password), users);
    if k == -1 then None else Some(users[k])
  }

  predicate Matches(u: User, identifier: string, password: string) {
    (u.email == identifier || u.phone == identifier) && u.password == Some(password)
  }

  /** The lookup finds a user exactly when one matches, and then the first one. */
  lemma FindByCredentialsIff(users: seq<User>, identifier: string, password: string)
    ensures FindByCredentials(users, identifier, password).Some? <==>
              exists i :: 0 <= i < |users| && Matches(users[i], identifier, password)
    ensures FindByCredentials(users, identifier, password).Some? ==>
              exists i :: 0 <= i < |users| && users[i] == FindByCredentials(users, identifier, password).value
                && Matches(users[i], identifier, password)
                && forall j :: 0 <= j < i ==> !Matches(users[j], identifier, password)
  {
    var p := (u: User) => (u.email == identifier || u.phone == identifier) && u.password == Some(password);
    var k := Seqs.FirstIndex(p, users);
    assert forall i :: 0 <= i < |users| ==> (p(users[i]) <==> Matches(users[i], identifier, password));
    if k != -1 {
      assert users[k] == FindByCredentials(users, identifier, password).value;
    }
  }

  /** The stored users (`nethmina_users`) and session (`nethmina_session`). */
  class AuthStore {
    var users: seq<User>
    var session: Option<User>

    constructor ()
      ensures users == [] && session == None
    {
      users := [];
      session := None;
    }

    /** `registerUser`. A taken email is reported before a taken phone;
        either leaves users and session alone. Otherwise one customer is
        appended, with a fresh id, and becomes the session. */
    method RegisterUser(email: string, phone: string, password: string, attempts: seq<seq<Utils.CharIndex>>)
      returns (res: AuthResult)
      requires WellFormedAttempts(attempts) && SomeAttemptFresh(users, attempts)
      modifies this
      ensures EmailTaken(old(users), email) ==>
        res == AuthResult(false, EMAIL_TAKEN, None) && users == old(users) && session == old(session)
      ensures !EmailTaken(old(users), email) && PhoneTaken(old(users), phone) ==>
        res == AuthResult(false, PHONE_TAKEN, None) && users == old(users) && session == old(session)
      ensures !EmailTaken(old(users), email) && !PhoneTaken(old(users), phone) ==>
        var u := NewCustomer(FreshId(old(users), attempts), email, phone, password);
        && res == AuthResult(true, REGISTERED, Some(u))
        && users == old(users) + [u] && session == Some(u)
        && !IdTaken(old(users), u.id)
      ensures DistinctIdentities(old(users)) ==> DistinctIdentities(users)
    {
      if EmailTaken(users, email) {
        return AuthResult(false, EMAIL_TAKEN, None);
      }
      if PhoneTaken(users, phone) {
        return AuthResult(false, PHONE_TAKEN, None);
      }
      ghost var known := users;
      ghost var pick := (a: seq<Utils.CharIndex>) => |a| == 12 && !IdTaken(known, Utils.CustomerIdOf(a));
      ghost var first := Seqs.FirstIndex(pick, attempts);
      ghost var w :| 0 <= w < |attempts| && !IdTaken(users, Utils.CustomerIdOf(attempts[w]));
      assert pick(attempts[w]);
      assert 0 <= first && pick(attempts[first]);
      var k := 0;
      var newId := Utils.GenerateCustomerId(attempts[0]);
      while IdTaken(users, newId)
        invariant users == known
        invariant 0 <= k <= first
        invariant newId == Utils.CustomerIdOf(attempts[k])
        decreases first - k
      {
        assert !pick(attempts[k]);
        k := k + 1;
        newId := Utils.GenerateCustomerId(attempts[k]);
      }
      assert k == first;
      var newUser := NewCustomer(newId, email, phone, password);
      if DistinctIdentities(users) {
        AppendKeepsDistinct(users, newUser);
      }
      users := users + [newUser];
      session := Some(newUser);
      return AuthResult(true, REGISTERED, Some(newUser));
    }

    /** `loginUser`: the admin code wins before any lookup; otherwise the
        first user matching email-or-phone and password becomes the
        session, and a failed login leaves the session alone. */
    method LoginUser(identifier: string, password: string) returns (res: AuthResult)
      modifies this
      ensures users == old(users)
      ensures identifier == ADMIN_CODE && password == ADMIN_CODE ==>
        res == AuthResult(true, WELCOME_ADMIN, Some(ADMIN_USER)) && session == Some(ADMIN_USER)
      ensures !(identifier == ADMIN_CODE && password == ADMIN_CODE) ==>
        match FindByCredentials(old(users), identifier, password)
        case Some(u) => res == AuthResult(true, LOGGED_IN, Some(u)) && session == Some(u)
        case None => res == AuthResult(false, BAD_CREDENTIALS, None) && session == old(session)
    {
      if identifier == ADMIN_CODE && password == ADMIN_CODE {
        session := Some(ADMIN_USER);
        return AuthResult(true, WELCOME_ADMIN, Some(ADMIN_USER));
      }
      var user := FindByCredentials(users, identifier, password);
      if user.Some? {
        session := user;
        return AuthResult(true, LOGGED_IN, user);
      }
      return AuthResult(false, BAD_CREDENTIALS, None);
    }

    /** `logoutUser`. */
    method LogoutUser()
      modifies this
      ensures session == None && users == old(users)
    {
      session := None;
    }

    /** `getCurrentUser`. */
    method GetCurrentUser() returns (u: Option<User>)
      ensures u == session
    {
      u := session;
    }
  }
}
