/** The identity service: user store, permission table, guards and handlers. */
module AuthService {
  import opened Bytes
  import opened Sequences
  import opened Token

  datatype User = User(id: string, email: string, passwordHash: string, role: string)

  /** The JSON view of a user leaves the password hash out. */
  datatype PublicUser = PublicUser(id: string, email: string, role: string)

  type Users = map<string, User>

  function Public(u: User): PublicUser {
    PublicUser(u.id, u.email, u.role)
  }

  const ROLE_PERMISSIONS: map<string, seq<string>> := map[
    "admin" := ["users:read", "users:write", "devices:read", "devices:write", "devices:admin"],
    "operator" := ["devices:read", "devices:write"],
    "viewer" := ["devices:read"]
  ]

  predicate HasPermission(role: string, permission: string) {
    role in ROLE_PERMISSIONS && permission in ROLE_PERMISSIONS[role]
  }

  datatype Credentials = Credentials(email: string, password: string)

  datatype NewUser = NewUser(email: string, password: string, role: string)

  /** A body that does not decode is None; a missing Authorization header is empty. */
  datatype Request =
    | Login(credentials: Option<Credentials>)
    | WhoAmI(authorization: Bytes)
    | AdminUsers(verb: string, authorization: Bytes, body: Option<NewUser>)

  datatype Reply =
    | Issued(token: Bytes)
    | Identity(claims: Claims)
    | Listing(users: set<PublicUser>)
    | Created(id: string, role: string)
    | BadRequest
    | Unauthorized
    | Forbidden
    | MethodNotAllowed
    | InternalError

  const BEARER := Ascii("Bearer") + [32]

  /** claimsFromRequest */
  function ClaimsFrom(lib: Libraries, secret: Bytes, authorization: Bytes, now: int): Parsed {
    if BEARER <= authorization then ParseToken(lib, secret, authorization[|BEARER|..], now) else InvalidToken
  }

  /** RequirePermission: the reply that stops the request, if any. */
  function Refusal(lib: Libraries, secret: Bytes, authorization: Bytes, permission: string, now: int): Option<Reply> {
    match ClaimsFrom(lib, secret, authorization, now)
    case Accepted(claims) => if HasPermission(claims.role, permission) then None else Some(Forbidden)
    case _ => Some(Unauthorized)
  }

  /** The stored user a login names, if the password is right. */
  function Authenticated(lib: Libraries, users: Users, c: Credentials): Option<User> {
    if c.email in users && users[c.email].passwordHash == lib.hashPassword(c.password)
    then Some(users[c.email])
    else None
  }

  /** What a login's body amounts to: a reply that ends it, or the stored user whose password it has. */
  datatype Lookup = Turned(reply: Reply) | Known(user: User)

  /** loginHandler up to the password comparison. */
  function FindUser(lib: Libraries, users: Users, credentials: Option<Credentials>): Lookup {
    match credentials
    case None => Turned(BadRequest)
    case Some(c) =>
      match Authenticated(lib, users, c)
      case None => Turned(Unauthorized)
      case Some(user) => Known(user)
  }

  /** loginHandler from there on. */
  function IssueReply(lib: Libraries, secret: Bytes, user: User, now: int): Reply {
    match NewToken(lib, secret, user.id, user.role, HOUR, now)
    case None => InternalError
    case Some(token) => Issued(token)
  }

  function LoginReply(lib: Libraries, secret: Bytes, users: Users, credentials: Option<Credentials>, now: int): Reply {
    match FindUser(lib, users, credentials)
    case Turned(reply) => reply
    case Known(user) => IssueReply(lib, secret, user, now)
  }

  /** RequireAuth around meHandler. */
  function IdentityReply(lib: Libraries, secret: Bytes, authorization: Bytes, now: int): Reply {
    match ClaimsFrom(lib, secret, authorization, now)
    case Accepted(claims) => Identity(claims)
    case _ => Unauthorized
  }

  /** methodSwitch and the permission guard: the reply that stops an admin request, if any. */
  function Admission(lib: Libraries, secret: Bytes, verb: string, authorization: Bytes, now: int): Option<Reply> {
    if verb == "GET" then Refusal(lib, secret, authorization, "users:read", now)
    else if verb == "POST" then Refusal(lib, secret, authorization, "users:write", now)
    else Some(MethodNotAllowed)
  }

  /** A new user's id is the email and an empty role becomes viewer. */
  function UserFrom(lib: Libraries, n: NewUser): User {
    User(n.email, n.email, lib.hashPassword(n.password), if n.role == "" then "viewer" else n.role)
  }

  function Everyone(users: Users): set<PublicUser> {
    set email | email in users :: Public(users[email])
  }

  /** The handler behind the guard: listUsersHandler or createUserHandler. */
  function Completed(lib: Libraries, users: Users, verb: string, body: Option<NewUser>): (Users, Reply) {
    if verb == "GET" then (users, Listing(Everyone(users)))
    else if body.None? then (users, BadRequest)
    else
      var user := UserFrom(lib, body.value);
      (users[user.email := user], Created(user.id, user.role))
  }

  /** The store and the reply after one request that nothing interrupts. */
  function Served(lib: Libraries, secret: Bytes, users: Users, request: Request, now: int): (Users, Reply) {
    match request
    case Login(credentials) => (users, LoginReply(lib, secret, users, credentials, now))
    case WhoAmI(authorization) => (users, IdentityReply(lib, secret, authorization, now))
    case AdminUsers(verb, authorization, body) =>
      match Admission(lib, secret, verb, authorization, now)
      case Some(refusal) => (users, refusal)
      case None => Completed(lib, users, verb, body)
  }

  function Seed(lib: Libraries): User {
    User("admin-seed", "admin@streamflix.local", lib.hashPassword("changeme"), "admin")
  }

  function SeededUsers(lib: Libraries): Users {
    map[Seed(lib).email := Seed(lib)]
  }

  class InMemoryStore {
    var users: Users

    constructor ()
      ensures users == map[]
    {
      users := map[];
    }

    function GetByEmail(email: string): Option<User>
      reads this
    {
      if email in users then Some(users[email]) else None
    }

    method Create(u: User)
      modifies this
      ensures users == old(users)[u.email := u]
    {
      users := users[u.email := u];
    }

    /** One element per stored entry, in no particular order. */
    method List() returns (out: seq<User>)
      ensures |out| == |users|
      ensures forall u :: u in out <==> exists email :: email in users && users[email] == u
    {
      out := [];
      var rest := users.Keys;
      assert |users.Keys| == |users|;
      while rest != {}
        invariant rest <= users.Keys
        invariant |out| + |rest| == |users|
        invariant forall email :: email in users.Keys - rest ==> users[email] in out
        invariant forall u :: u in out ==> exists email :: email in users.Keys - rest && users[email] == u
      {
        var email :| email in rest;
        forall u | u in out + [users[email]]
          ensures exists e :: e in users.Keys - (rest - {email}) && users[e] == u
        {
          if u in out {
            var e :| e in users.Keys - rest && users[e] == u;
            assert e in users.Keys - (rest - {email});
          } else {
            assert email in users.Keys - (rest - {email});
          }
        }
        out := out + [users[email]];
        rest := rest - {email};
      }
    }
  }

  class Service {
    const lib: Libraries
    const secret: Bytes
    const store: InMemoryStore

    constructor (lib: Libraries, secret: Bytes)
      ensures this.lib == lib && this.secret == secret
      ensures store.users == SeededUsers(lib) && fresh(store)
    {
      this.lib := lib;
      this.secret := secret;
      var seeded := new InMemoryStore();
      seeded.Create(Seed(lib));
      store := seeded;
    }

    method LoginHandler(credentials: Option<Credentials>, now: int) returns (reply: Reply)
      ensures reply == LoginReply(lib, secret, store.users, credentials, now)
    {
      if credentials.None? {
        return BadRequest;
      }
      var user := store.GetByEmail(credentials.value.email);
      if user.None? || user.value.passwordHash != lib.hashPassword(credentials.value.password) {
        return Unauthorized;
      }
      var token := NewToken(lib, secret, user.value.id, user.value.role, HOUR, now);
      reply := if token.None? then InternalError else Issued(token.value);
    }

    method ListUsersHandler() returns (reply: Reply)
      ensures reply == Listing(Everyone(store.users))
    {
      var all := store.List();
      reply := Listing(set u | u in all :: Public(u));
    }

    method CreateUserHandler(body: Option<NewUser>) returns (reply: Reply)
      modifies store
      ensures body.None? ==> store.users == old(store.users) && reply == BadRequest
      ensures body.Some? ==>
        var user := UserFrom(lib, body.value);
        store.users == old(store.users)[user.email := user] && reply == Created(user.id, user.role)
    {
      if body.None? {
        return BadRequest;
      }
      var role := body.value.role;
      if role == "" {
        role := "viewer";
      }
      var user := User(body.value.email, body.value.email, lib.hashPassword(body.value.password), role);
      store.Create(user);
      reply := Created(user.id, user.role);
    }

    method Serve(request: Request, now: int) returns (reply: Reply)
      modifies store
      ensures (store.users, reply) == Served(lib, secret, old(store.users), request, now)
    {
      match request
      case Login(credentials) =>
        reply := LoginHandler(credentials, now);
      case WhoAmI(authorization) =>
        var parsed := ClaimsFrom(lib, secret, authorization, now);
        reply := if parsed.Accepted? then Identity(parsed.claims) else Unauthorized;
      case AdminUsers(verb, authorization, body) =>
        if verb == "GET" {
          var refusal := Refusal(lib, secret, authorization, "users:read", now);
          if refusal.Some? {
            return refusal.value;
          }
          reply := ListUsersHandler();
        } else if verb == "POST" {
          var refusal := Refusal(lib, secret, authorization, "users:write", now);
          if refusal.Some? {
            return refusal.value;
          }
          reply := CreateUserHandler(body);
        } else {
          reply := MethodNotAllowed;
        }
    }
  }
}
