/** What one request makes possible for the next: logging in, being identified, being created. */
module AuthFlows {
  import opened Bytes
  import opened Sequences
  import opened Token
  import opened AuthService
  import opened AuthProvenance

  /**
   A login is answered with a token exactly for a stored user's right password, an unknown
   email and a wrong password being answered alike; the token then identifies that user until
   an hour's expiry second has passed, whatever happens to the store. Instants are in nanoseconds.
   */
  lemma LoginIdentifies(lib: Libraries, secret: Bytes, users: Users, c: Credentials, issued: int,
      later: Users, now: int)
    requires JsonFaithful(lib)
    ensures var right := c.email in users && users[c.email].passwordHash == lib.hashPassword(c.password);
      var (after, reply) := Served(lib, secret, users, Login(Some(c)), issued);
      && after == users
      && (reply.Issued? <==> right)
      && (!right ==> reply == Unauthorized)
      && (right ==>
            var user, expiry := users[c.email], (issued + 3_600_000_000_000) / 1_000_000_000;
            Served(lib, secret, later, WhoAmI(Bearing(reply.token)), now)
            == (later, if now / 1_000_000_000 <= expiry then Identity(Claims(user.id, user.role, expiry))
                       else Unauthorized))
  {
    if c.email in users && users[c.email].passwordHash == lib.hashPassword(c.password) {
      var user := users[c.email];
      assert JsonRoundTrips(lib, IssuedClaims(user.id, user.role, HOUR, issued));
      TokenRoundTrip(lib, secret, user.id, user.role, HOUR, issued, now);
      var token := NewToken(lib, secret, user.id, user.role, HOUR, issued).value;
      assert Bearing(token)[|BEARER|..] == token && BEARER <= Bearing(token);
    }
  }

  /** A body that does not decode is a bad request; claims that do not encode are the service's own fault. */
  lemma LoginFailures(lib: Libraries, secret: Bytes, users: Users, c: Credentials, now: int)
    ensures Served(lib, secret, users, Login(None), now) == (users, BadRequest)
    ensures
      && c.email in users && users[c.email].passwordHash == lib.hashPassword(c.password)
      && lib.marshal(Claims(users[c.email].id, users[c.email].role, (now + 3_600_000_000_000) / 1_000_000_000)).None?
      ==> Served(lib, secret, users, Login(Some(c)), now) == (users, InternalError)
  {
  }

  /** An accepted create lets its user log in with its password, under the role asked for or viewer. */
  lemma CreatedUserLogsIn(lib: Libraries, secret: Bytes, users: Users, authorization: Bytes, n: NewUser, created: int,
                          issued: int, now: int)
    requires JsonFaithful(lib)
    requires Served(lib, secret, users, AdminUsers("POST", authorization, Some(n)), created).1.Created?
    requires now / 1_000_000_000 <= (issued + 3_600_000_000_000) / 1_000_000_000
    ensures var (after, created) := Served(lib, secret, users, AdminUsers("POST", authorization, Some(n)), created);
      var role := if n.role == "" then "viewer" else n.role;
      && created == Created(n.email, role)
      && (forall email :: email != n.email ==>
            (email in after <==> email in users) && (email in users ==> after[email] == users[email]))
      && var reply := Served(lib, secret, after, Login(Some(Credentials(n.email, n.password))), issued).1;
      && reply.Issued?
      && Served(lib, secret, after, WhoAmI(Bearing(reply.token)), now).1
         == Identity(Claims(n.email, role, (issued + 3_600_000_000_000) / 1_000_000_000))
  {
    var after := Served(lib, secret, users, AdminUsers("POST", authorization, Some(n)), created).0;
    LoginIdentifies(lib, secret, after, Credentials(n.email, n.password), issued, after, now);
  }

  /** On a fresh service the seeded admin logs in with its password and is identified as the admin. */
  lemma SeedLogsIn(lib: Libraries, secret: Bytes, issued: int)
    requires JsonFaithful(lib)
    ensures SeededUsers(lib).Keys == {"admin@streamflix.local"}
    ensures var users := SeededUsers(lib);
      var c := Credentials("admin@streamflix.local", "changeme");
      var reply := Served(lib, secret, users, Login(Some(c)), issued).1;
      && reply.Issued?
      && Served(lib, secret, users, WhoAmI(Bearing(reply.token)), issued).1
         == Identity(Claims("admin-seed", "admin", (issued + 3_600_000_000_000) / 1_000_000_000))
  {
    var c := Credentials("admin@streamflix.local", "changeme");
    LoginIdentifies(lib, secret, SeededUsers(lib), c, issued, SeededUsers(lib), issued);
  }

  /** Two stores whose users differ in their password hashes only. */
  ghost predicate SameButHashes(a: Users, b: Users) {
    && a.Keys == b.Keys
    && forall email :: email in a ==>
         a[email].id == b[email].id && a[email].email == b[email].email && a[email].role == b[email].role
  }

  /** A listing shows the id, email and role of every stored user, and nothing that depends on a hash. */
  lemma ListingExactly(lib: Libraries, secret: Bytes, users: Users, authorization: Bytes, now: int, others: Users)
    requires Served(lib, secret, users, AdminUsers("GET", authorization, None), now).1.Listing?
    ensures var (after, reply) := Served(lib, secret, users, AdminUsers("GET", authorization, None), now);
      && after == users
      && (forall u :: u in reply.users <==>
            exists email :: email in users && u == PublicUser(users[email].id, users[email].email, users[email].role))
      && (SameButHashes(users, others) ==>
            Served(lib, secret, others, AdminUsers("GET", authorization, None), now) == (others, reply))
  {
    if SameButHashes(users, others) {
      ShownAlike(users, others);
    }
  }

  lemma ShownAlike(a: Users, b: Users)
    requires SameButHashes(a, b)
    ensures Everyone(a) == Everyone(b)
  {
    forall u ensures u in Everyone(a) <==> u in Everyone(b) {
      if email :| email in a && Public(a[email]) == u {
        assert email in b && Public(b[email]) == u;
      }
      if email :| email in b && Public(b[email]) == u {
        assert email in a && Public(a[email]) == u;
      }
    }
  }

  /** The permission table: admins everything, operators all about devices but their administration, viewers reading. */
  lemma PermissionsExactly(role: string, permission: string)
    ensures HasPermission(role, permission) <==>
      match permission
      case "users:read" => role == "admin"
      case "users:write" => role == "admin"
      case "devices:read" => role == "admin" || role == "operator" || role == "viewer"
      case "devices:write" => role == "admin" || role == "operator"
      case "devices:admin" => role == "admin"
      case _ => false
  {
  }
}
