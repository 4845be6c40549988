/**
 Where every stored user comes from, over whole runs of the identity service. A login looks
 its user up in one step and issues the token in a later one; an admin request passes its guard
 in one step and reads its body, lists or writes in a later one. Other requests may come between.
 */
module AuthProvenance {
  import opened Bytes
  import opened Sequences
  import opened Token
  import opened AuthService

  /** What the service accepted, in order. Tokens name their lookup and created users their admission. */
  datatype Entry =
    | UserFound(at: int, user: User)
    | TokenIssued(at: int, lookup: nat, token: Bytes)
    | AdminAdmitted(at: int, verb: string, authorization: Bytes)
    | UserCreated(at: int, admission: nat, user: User)
    | Other(at: int)

  /** The store, the time, the log, and the places in it of requests that are half way. */
  datatype World = World(users: Users, clock: int, log: seq<Entry>, open: set<nat>)

  datatype Step =
    | LookUp(credentials: Option<Credentials>)
    | Issue(lookup: nat)
    | Identify(authorization: Bytes)
    | Admit(verb: string, authorization: Bytes)
    | Complete(admission: nat, body: Option<NewUser>)

  function Boot(lib: Libraries, start: int): World {
    World(SeededUsers(lib), start, [], {})
  }

  /** A second half belongs to a first half of its kind. */
  predicate Fits(w: World, step: Step) {
    match step
    case Issue(lookup) => lookup < |w.log| && w.log[lookup].UserFound?
    case Complete(admission, _) => admission < |w.log| && w.log[admission].AdminAdmitted?
    case _ => true
  }

  /** None when the request goes on. */
  function ReplyTo(lib: Libraries, secret: Bytes, w: World, step: Step, now: int): Option<Reply>
    requires Fits(w, step)
  {
    match step
    case LookUp(credentials) =>
      (match FindUser(lib, w.users, credentials)
       case Turned(reply) => Some(reply)
       case Known(_) => None)
    case Issue(lookup) => Some(IssueReply(lib, secret, w.log[lookup].user, now))
    case Identify(authorization) => Some(IdentityReply(lib, secret, authorization, now))
    case Admit(verb, authorization) => Admission(lib, secret, verb, authorization, now)
    case Complete(admission, body) => Some(Completed(lib, w.users, w.log[admission].verb, body).1)
  }

  function EntryOf(lib: Libraries, secret: Bytes, w: World, step: Step, now: int): Entry
    requires Fits(w, step)
  {
    match step
    case LookUp(credentials) =>
      (match FindUser(lib, w.users, credentials)
       case Known(user) => UserFound(now, user)
       case Turned(_) => Other(now))
    case Issue(lookup) =>
      (match IssueReply(lib, secret, w.log[lookup].user, now)
       case Issued(token) => TokenIssued(now, lookup, token)
       case _ => Other(now))
    case Identify(_) => Other(now)
    case Admit(verb, authorization) =>
      if Admission(lib, secret, verb, authorization, now).None? then AdminAdmitted(now, verb, authorization)
      else Other(now)
    case Complete(admission, body) =>
      if w.log[admission].verb != "GET" && body.Some? then UserCreated(now, admission, UserFrom(lib, body.value))
      else Other(now)
  }

  function UsersOf(lib: Libraries, w: World, step: Step): Users
    requires Fits(w, step)
  {
    if step.Complete? then Completed(lib, w.users, w.log[step.admission].verb, step.body).0 else w.users
  }

  function Opened(w: World, reply: Option<Reply>): set<nat> {
    if reply.None? then w.open + {|w.log|} else w.open
  }

  function OpenAfter(lib: Libraries, secret: Bytes, w: World, step: Step, now: int): set<nat>
    requires Fits(w, step)
  {
    match step
    case Issue(lookup) => w.open - {lookup}
    case Complete(admission, _) => w.open - {admission}
    case LookUp(_) => Opened(w, ReplyTo(lib, secret, w, step, now))
    case Admit(_, _) => Opened(w, ReplyTo(lib, secret, w, step, now))
    case Identify(_) => w.open
  }

  function Next(lib: Libraries, secret: Bytes, w: World, step: Step, now: int): World
    requires Fits(w, step)
  {
    World(UsersOf(lib, w, step), now, w.log + [EntryOf(lib, secret, w, step, now)],
          OpenAfter(lib, secret, w, step, now))
  }

  /** A token whose signature checks was issued earlier in the run. */
  predicate OwnToken(lib: Libraries, secret: Bytes, log: seq<Entry>, authorization: Bytes) {
    BEARER <= authorization ==>
      var token := authorization[|BEARER|..];
      SignatureValid(lib, secret, token) ==>
        exists j :: 0 <= j < |log| && log[j].TokenIssued? && log[j].token == token
  }

  /** Time does not go back, a first half has at most one second half, and tokens are not forged. */
  predicate Possible(lib: Libraries, secret: Bytes, w: World, step: Step, now: int) {
    && w.clock <= now
    && Fits(w, step)
    && match step
       case Issue(lookup) => lookup in w.open
       case Complete(admission, _) => admission in w.open
       case Identify(authorization) => OwnToken(lib, secret, w.log, authorization)
       case Admit(_, authorization) => OwnToken(lib, secret, w.log, authorization)
       case LookUp(_) => true
  }

  predicate PossibleRun(lib: Libraries, secret: Bytes, w: World, run: seq<(Step, int)>)
    decreases |run|
  {
    run == []
    || (Possible(lib, secret, w, run[0].0, run[0].1)
        && PossibleRun(lib, secret, Next(lib, secret, w, run[0].0, run[0].1), run[1..]))
  }

  function After(lib: Libraries, secret: Bytes, w: World, run: seq<(Step, int)>): World
    requires PossibleRun(lib, secret, w, run)
    decreases |run|
  {
    if run == [] then w else After(lib, secret, Next(lib, secret, w, run[0].0, run[0].1), run[1..])
  }

  /** The first step of a request. */
  function FirstHalf(request: Request): Step {
    match request
    case Login(credentials) => LookUp(credentials)
    case WhoAmI(authorization) => Identify(authorization)
    case AdminUsers(verb, authorization, _) => Admit(verb, authorization)
  }

  /** The second step of a request whose first step is at a place in the log. */
  function SecondHalf(request: Request, place: nat): Step
    requires !request.WhoAmI?
  {
    match request
    case Login(_) => Issue(place)
    case AdminUsers(_, _, body) => Complete(place, body)
  }

  /** A request whose halves follow each other directly is served as a whole. */
  lemma UninterruptedIsServed(lib: Libraries, secret: Bytes, w: World, request: Request, now: int)
    ensures var (users, reply) := Served(lib, secret, w.users, request, now);
      var first := FirstHalf(request);
      var t := Next(lib, secret, w, first, now);
      if ReplyTo(lib, secret, w, first, now).Some?
      then (users, Some(reply)) == (t.users, ReplyTo(lib, secret, w, first, now))
      else
        && !request.WhoAmI?
        && var second := SecondHalf(request, |w.log|);
           && Fits(t, second) && |w.log| in t.open
           && (users, Some(reply)) == (Next(lib, secret, t, second, now).users, ReplyTo(lib, secret, t, second, now))
  {
    var t := Next(lib, secret, w, FirstHalf(request), now);
    assert t.log[|w.log|] == EntryOf(lib, secret, w, FirstHalf(request), now);
  }

  /** The store as the creates of a log leave it, the last write of an email winning. */
  function UsersAfter(lib: Libraries, log: seq<Entry>): Users {
    if log == [] then SeededUsers(lib)
    else
      var before := UsersAfter(lib, log[..|log| - 1]);
      match log[|log| - 1]
      case UserCreated(_, _, user) => before[user.email := user]
      case _ => before
  }

  /** The user found at a place in the log was stored then. */
  ghost predicate StoredAt(lib: Libraries, log: seq<Entry>, m: nat)
    requires m < |log| && log[m].UserFound?
  {
    var users := UsersAfter(lib, log[..m]);
    log[m].user.email in users && users[log[m].user.email] == log[m].user
  }

  /** The token at a place in the log was issued, under its own expiry, to the user its lookup had found. */
  ghost predicate IssuedAt(lib: Libraries, secret: Bytes, log: seq<Entry>, j: nat)
    requires j < |log| && log[j].TokenIssued?
  {
    var m := log[j].lookup;
    && m < j && log[m].UserFound? && log[m].at <= log[j].at
    && NewToken(lib, secret, log[m].user.id, log[m].user.role, HOUR, log[j].at) == Some(log[j].token)
  }

  /** An Authorization header that carries a token: the octets of "Bearer ", then the token. */
  function Bearing(token: Bytes): Bytes {
    [66, 101, 97, 114, 101, 114, 32] + token
  }

  /** The second up to whose end a token of an hour is accepted; instants are in nanoseconds. */
  function ExpirySecond(issued: int): int {
    (issued + 3_600_000_000_000) / 1_000_000_000
  }

  /** An authorization header carries the token of entry j, and it has not expired. */
  predicate LiveLogin(log: seq<Entry>, j: nat, authorization: Bytes, now: int) {
    && j < |log| && log[j].TokenIssued?
    && log[j].lookup < j && log[log[j].lookup].UserFound?
    && authorization == Bearing(log[j].token)
    && log[j].at <= now && now / 1_000_000_000 <= ExpirySecond(log[j].at)
  }

  /** Such a token of a user who was an admin. */
  predicate AdminLogin(log: seq<Entry>, j: nat, authorization: Bytes, now: int) {
    LiveLogin(log, j, authorization, now) && log[log[j].lookup].user.role == "admin"
  }

  /** The request carries the unexpired token of some login. */
  ghost predicate ByLogin(log: seq<Entry>, authorization: Bytes, now: int) {
    exists j: nat :: LiveLogin(log, j, authorization, now)
  }

  /** The request carries the unexpired token of a user who had role admin when the login looked it up. */
  ghost predicate ByAdmin(log: seq<Entry>, authorization: Bytes, now: int) {
    exists j: nat :: AdminLogin(log, j, authorization, now)
  }

  /** What an entry says of the entries before it. */
  ghost predicate Sound(lib: Libraries, secret: Bytes, log: seq<Entry>, n: nat)
    requires n < |log|
  {
    match log[n]
    case UserFound(_, _) => StoredAt(lib, log, n)
    case TokenIssued(_, _, _) => IssuedAt(lib, secret, log, n)
    case AdminAdmitted(at, verb, authorization) =>
      (verb == "GET" || verb == "POST") && ByAdmin(log[..n], authorization, at)
    case UserCreated(at, i, _) => i < n && log[i].AdminAdmitted? && log[i].verb == "POST" && log[i].at <= at
    case Other(_) => true
  }

  /** What every run keeps. */
  ghost predicate Accountable(lib: Libraries, secret: Bytes, w: World) {
    && w.users == UsersAfter(lib, w.log)
    && forall n :: 0 <= n < |w.log| ==> Sound(lib, secret, w.log, n) && w.log[n].at <= w.clock
  }

  ghost predicate JsonFaithful(lib: Libraries) {
    forall claims :: JsonRoundTrips(lib, claims)
  }

  lemma AdminPermissions(role: string)
    ensures HasPermission(role, "users:write") <==> role == "admin"
    ensures HasPermission(role, "users:read") <==> role == "admin"
  {
  }

  /** An issued token parses to its user's identity until its expiry second has passed. */
  lemma IssuedTokenParses(lib: Libraries, secret: Bytes, log: seq<Entry>, j: nat, now: int)
    requires JsonFaithful(lib) && j < |log| && log[j].TokenIssued? && IssuedAt(lib, secret, log, j)
    ensures var user := log[log[j].lookup].user;
      ParseToken(lib, secret, log[j].token, now)
      == if Unix(now) <= Unix(log[j].at + HOUR)
         then Accepted(IssuedClaims(user.id, user.role, HOUR, log[j].at)) else ExpiredToken
  {
    var user := log[log[j].lookup].user;
    assert JsonRoundTrips(lib, IssuedClaims(user.id, user.role, HOUR, log[j].at));
    TokenRoundTrip(lib, secret, user.id, user.role, HOUR, log[j].at, now);
  }

  lemma LiveLoginAccepted(lib: Libraries, secret: Bytes, log: seq<Entry>, j: nat, authorization: Bytes, now: int)
    requires JsonFaithful(lib) && LiveLogin(log, j, authorization, now) && IssuedAt(lib, secret, log, j)
    ensures var user := log[log[j].lookup].user;
      ClaimsFrom(lib, secret, authorization, now) == Accepted(Claims(user.id, user.role, ExpirySecond(log[j].at)))
  {
    IssuedTokenParses(lib, secret, log, j, now);
    assert authorization[|BEARER|..] == log[j].token;
  }

  lemma AcceptedIsSigned(lib: Libraries, secret: Bytes, authorization: Bytes, now: int)
    requires ClaimsFrom(lib, secret, authorization, now).Accepted?
    ensures BEARER <= authorization && authorization == Bearing(authorization[|BEARER|..])
    ensures SignatureValid(lib, secret, authorization[|BEARER|..])
    ensures ParseToken(lib, secret, authorization[|BEARER|..], now).Accepted?
  {
    hide SignatureValid;
    assert authorization == BEARER + authorization[|BEARER|..];
  }

  lemma AcceptedNeedsLogin(lib: Libraries, secret: Bytes, w: World, authorization: Bytes, now: int) returns (j: nat)
    requires JsonFaithful(lib) && Accountable(lib, secret, w)
    requires w.clock <= now && OwnToken(lib, secret, w.log, authorization)
    requires ClaimsFrom(lib, secret, authorization, now).Accepted?
    ensures LiveLogin(w.log, j, authorization, now)
  {
    hide ParseToken, SignatureValid, NewToken, JsonFaithful, StoredAt, UsersAfter;
    AcceptedIsSigned(lib, secret, authorization, now);
    j :| 0 <= j < |w.log| && w.log[j].TokenIssued? && w.log[j].token == authorization[|BEARER|..];
    assert Sound(lib, secret, w.log, j);
    IssuedTokenParses(lib, secret, w.log, j, now);
  }

  /** A caller is accepted exactly with the unexpired token of a login, and then as the user looked up for it. */
  lemma AcceptedExactly(lib: Libraries, secret: Bytes, w: World, authorization: Bytes, now: int)
    requires JsonFaithful(lib) && Accountable(lib, secret, w)
    requires w.clock <= now && OwnToken(lib, secret, w.log, authorization)
    ensures ClaimsFrom(lib, secret, authorization, now).Accepted? <==> ByLogin(w.log, authorization, now)
    ensures forall j: nat :: LiveLogin(w.log, j, authorization, now) ==>
      var user := w.log[w.log[j].lookup].user;
      ClaimsFrom(lib, secret, authorization, now) == Accepted(Claims(user.id, user.role, ExpirySecond(w.log[j].at)))
  {
    forall j: nat | LiveLogin(w.log, j, authorization, now)
      ensures var user := w.log[w.log[j].lookup].user;
        ClaimsFrom(lib, secret, authorization, now) == Accepted(Claims(user.id, user.role, ExpirySecond(w.log[j].at)))
    {
      assert Sound(lib, secret, w.log, j);
      LiveLoginAccepted(lib, secret, w.log, j, authorization, now);
    }
    if ClaimsFrom(lib, secret, authorization, now).Accepted? {
      var j := AcceptedNeedsLogin(lib, secret, w, authorization, now);
    }
  }

  /** "Who am I" is answered exactly to callers with an unexpired token, with its user's identity, and 401 to others. */
  lemma IdentifiedExactly(lib: Libraries, secret: Bytes, w: World, authorization: Bytes, now: int)
    requires JsonFaithful(lib) && Accountable(lib, secret, w)
    requires Possible(lib, secret, w, Identify(authorization), now)
    ensures var reply := ReplyTo(lib, secret, w, Identify(authorization), now);
      && (!ByLogin(w.log, authorization, now) ==> reply == Some(Unauthorized))
      && forall j: nat :: LiveLogin(w.log, j, authorization, now) ==>
           var user := w.log[w.log[j].lookup].user;
           reply == Some(Identity(Claims(user.id, user.role, ExpirySecond(w.log[j].at))))
  {
    AcceptedExactly(lib, secret, w, authorization, now);
  }

  /** A guard lets through exactly the requests that carry an unexpired token of an admin's login. */
  lemma GuardExactly(lib: Libraries, secret: Bytes, w: World, authorization: Bytes, permission: string, now: int)
    requires JsonFaithful(lib) && Accountable(lib, secret, w)
    requires w.clock <= now && OwnToken(lib, secret, w.log, authorization)
    requires permission == "users:read" || permission == "users:write"
    ensures Refusal(lib, secret, authorization, permission, now)
         == if ByAdmin(w.log, authorization, now) then None
            else if ByLogin(w.log, authorization, now) then Some(Forbidden)
            else Some(Unauthorized)
  {
    AcceptedExactly(lib, secret, w, authorization, now);
    if j: nat :| LiveLogin(w.log, j, authorization, now) {
      AdminPermissions(w.log[w.log[j].lookup].user.role);
      if i: nat :| AdminLogin(w.log, i, authorization, now) {
        assert LiveLogin(w.log, i, authorization, now);
        AdminPermissions(w.log[w.log[i].lookup].user.role);
      } else {
        assert !AdminLogin(w.log, j, authorization, now);
      }
    }
  }

  /**
   Requests are admitted exactly under the two verbs and with the unexpired token of an admin's
   login; other verbs are answered 405, other users' tokens 403 and the rest 401.
   */
  lemma AdmittedExactly(lib: Libraries, secret: Bytes, w: World, verb: string, authorization: Bytes, now: int)
    requires JsonFaithful(lib) && Accountable(lib, secret, w)
    requires Possible(lib, secret, w, Admit(verb, authorization), now)
    ensures ReplyTo(lib, secret, w, Admit(verb, authorization), now)
         == if verb != "GET" && verb != "POST" then Some(MethodNotAllowed)
            else if ByAdmin(w.log, authorization, now) then None
            else if ByLogin(w.log, authorization, now) then Some(Forbidden)
            else Some(Unauthorized)
  {
    GuardExactly(lib, secret, w, authorization, "users:read", now);
    GuardExactly(lib, secret, w, authorization, "users:write", now);
  }

  /**
   Users are listed, and created, only by completing a request admitted under the right verb; a
   malformed body is answered 400, and nothing but a create changes the store.
   */
  lemma AdminRequestsExactly(lib: Libraries, secret: Bytes, w: World, step: Step, now: int)
    requires JsonFaithful(lib) && Accountable(lib, secret, w) && Possible(lib, secret, w, step, now)
    ensures var reply, users := ReplyTo(lib, secret, w, step, now), Next(lib, secret, w, step, now).users;
      && (reply.Some? && reply.value.Listing? <==> step.Complete? && w.log[step.admission].verb == "GET")
      && (reply.Some? && reply.value.Created? <==>
            step.Complete? && w.log[step.admission].verb == "POST" && step.body.Some?)
      && (step.Complete? && w.log[step.admission].verb == "POST" && step.body.None? ==> reply == Some(BadRequest))
      && (!(reply.Some? && reply.value.Created?) ==> users == w.users)
  {
    if step.Complete? {
      assert Sound(lib, secret, w.log, step.admission);
    }
  }

  lemma UsersAfterAppend(lib: Libraries, log: seq<Entry>, e: Entry)
    ensures UsersAfter(lib, log + [e])
         == if e.UserCreated? then UsersAfter(lib, log)[e.user.email := e.user] else UsersAfter(lib, log)
  {
    assert (log + [e])[..|log|] == log;
  }

  lemma SoundKept(lib: Libraries, secret: Bytes, log: seq<Entry>, e: Entry, n: nat)
    requires n < |log| && Sound(lib, secret, log, n)
    ensures Sound(lib, secret, log + [e], n)
  {
    assert (log + [e])[..n] == log[..n];
  }

  lemma FoundIsStored(lib: Libraries, w: World, credentials: Option<Credentials>, now: int)
    requires w.users == UsersAfter(lib, w.log) && FindUser(lib, w.users, credentials).Known?
    ensures StoredAt(lib, w.log + [UserFound(now, FindUser(lib, w.users, credentials).user)], |w.log|)
  {
    StoredUsersWereWritten(lib, w.log, credentials.value.email);
    assert (w.log + [UserFound(now, FindUser(lib, w.users, credentials).user)])[..|w.log|] == w.log;
  }

  lemma AdmittedByAdmin(lib: Libraries, secret: Bytes, w: World, step: Step, now: int)
    requires JsonFaithful(lib) && Accountable(lib, secret, w) && Possible(lib, secret, w, step, now)
    requires step.Admit? && ReplyTo(lib, secret, w, step, now).None?
    ensures Sound(lib, secret, w.log + [AdminAdmitted(now, step.verb, step.authorization)], |w.log|)
  {
    AdmittedExactly(lib, secret, w, step.verb, step.authorization, now);
    assert (w.log + [AdminAdmitted(now, step.verb, step.authorization)])[..|w.log|] == w.log;
  }

  /** The entry a step adds is sound. */
  lemma EntrySound(lib: Libraries, secret: Bytes, w: World, step: Step, now: int)
    requires JsonFaithful(lib) && Accountable(lib, secret, w) && Possible(lib, secret, w, step, now)
    ensures var e := EntryOf(lib, secret, w, step, now); e.at == now && Sound(lib, secret, w.log + [e], |w.log|)
  {
    var e := EntryOf(lib, secret, w, step, now);
    match step
    case LookUp(credentials) =>
      if e.UserFound? {
        FoundIsStored(lib, w, credentials, now);
      }
    case Admit(_, _) =>
      if e.AdminAdmitted? {
        AdmittedByAdmin(lib, secret, w, step, now);
      }
    case Complete(admission, _) => assert Sound(lib, secret, w.log, admission);
    case _ =>
  }

  lemma AccountableStep(lib: Libraries, secret: Bytes, w: World, step: Step, now: int)
    requires JsonFaithful(lib) && Accountable(lib, secret, w) && Possible(lib, secret, w, step, now)
    ensures Accountable(lib, secret, Next(lib, secret, w, step, now))
  {
    var e, t := EntryOf(lib, secret, w, step, now), Next(lib, secret, w, step, now);
    EntrySound(lib, secret, w, step, now);
    UsersAfterAppend(lib, w.log, e);
    forall n | 0 <= n < |t.log| ensures Sound(lib, secret, t.log, n) && t.log[n].at <= now {
      if n < |w.log| {
        assert Sound(lib, secret, w.log, n);
        SoundKept(lib, secret, w.log, e, n);
      }
    }
  }

  lemma {:induction false} AccountableAlong(lib: Libraries, secret: Bytes, w: World, run: seq<(Step, int)>)
    requires JsonFaithful(lib) && Accountable(lib, secret, w) && PossibleRun(lib, secret, w, run)
    ensures Accountable(lib, secret, After(lib, secret, w, run))
    decreases |run|
  {
    if run == [] {
    } else {
      AccountableStep(lib, secret, w, run[0].0, run[0].1);
      AccountableAlong(lib, secret, Next(lib, secret, w, run[0].0, run[0].1), run[1..]);
    }
  }

  /** Every entry of the replayed store is the seed or was written by a create in the log. */
  lemma {:induction false} StoredUsersWereWritten(lib: Libraries, log: seq<Entry>, email: string)
    requires email in UsersAfter(lib, log)
    ensures var user := UsersAfter(lib, log)[email];
      && user.email == email
      && (user == Seed(lib) || exists k :: 0 <= k < |log| && log[k].UserCreated? && log[k].user == user)
  {
    if log == [] {
    } else {
      var front := log[..|log| - 1];
      if log[|log| - 1].UserCreated? && log[|log| - 1].user.email == email {
      } else {
        StoredUsersWereWritten(lib, front, email);
        var user := UsersAfter(lib, log)[email];
        if k :| 0 <= k < |front| && front[k].UserCreated? && front[k].user == user {
          assert log[k].UserCreated? && log[k].user == user;
        }
      }
    }
  }

  /**
   Create k was admitted with the token of entry j, issued to a stored admin less than an hour
   and a second before the admission; the write comes after the admission, at any distance.
   */
  ghost predicate AuthorizedBy(lib: Libraries, log: seq<Entry>, k: nat, j: nat)
    requires k < |log| && log[k].UserCreated?
  {
    var i := log[k].admission;
    && j < i < k && log[i].AdminAdmitted? && log[i].verb == "POST"
    && log[j].TokenIssued? && log[j].lookup < j && log[log[j].lookup].UserFound?
    && StoredAt(lib, log, log[j].lookup)
    && log[log[j].lookup].user.role == "admin"
    && log[log[j].lookup].at <= log[j].at <= log[i].at <= log[k].at
    && log[i].at < log[j].at + 3_601_000_000_000
  }

  lemma CreateIsAuthorized(lib: Libraries, secret: Bytes, w: World, k: nat) returns (j: nat)
    requires Accountable(lib, secret, w) && k < |w.log| && w.log[k].UserCreated?
    ensures AuthorizedBy(lib, w.log, k, j)
  {
    assert Sound(lib, secret, w.log, k);
    var i := w.log[k].admission;
    assert Sound(lib, secret, w.log, i);
    j :| AdminLogin(w.log[..i], j, w.log[i].authorization, w.log[i].at);
    assert Sound(lib, secret, w.log, j) && Sound(lib, secret, w.log, w.log[j].lookup);
  }

  /** A chain of accepted creates, each allowed by an earlier login of a stored admin, back to the seed. */
  ghost predicate Provenance(lib: Libraries, log: seq<Entry>, user: User, before: nat)
    decreases before
  {
    || user == Seed(lib)
    || exists k: nat, j: nat :: k < before && k < |log| && log[k].UserCreated? && log[k].user == user
         && AuthorizedBy(lib, log, k, j) && Provenance(lib, log, log[log[j].lookup].user, log[j].lookup)
  }

  /** A user stored after any prefix of an accountable log has a provenance inside that prefix. */
  lemma {:induction false} ProvenanceAt(lib: Libraries, secret: Bytes, w: World, before: nat, email: string)
    requires Accountable(lib, secret, w) && before <= |w.log|
    requires email in UsersAfter(lib, w.log[..before])
    ensures Provenance(lib, w.log, UsersAfter(lib, w.log[..before])[email], before)
    decreases before
  {
    var prefix := w.log[..before];
    var user := UsersAfter(lib, prefix)[email];
    StoredUsersWereWritten(lib, prefix, email);
    if user != Seed(lib) {
      var k :| 0 <= k < |prefix| && prefix[k].UserCreated? && prefix[k].user == user;
      assert w.log[k].UserCreated?;
      var j := CreateIsAuthorized(lib, secret, w, k);
      var m := w.log[j].lookup;
      ProvenanceAt(lib, secret, w, m, w.log[m].user.email);
      assert k < before && w.log[k].user == user && Provenance(lib, w.log, w.log[m].user, m);
    }
  }

  /** In every run, every stored user descends from the seed through timely admin logins. */
  lemma EveryUserHasProvenance(lib: Libraries, secret: Bytes, start: int, run: seq<(Step, int)>, email: string)
    requires JsonFaithful(lib) && PossibleRun(lib, secret, Boot(lib, start), run)
    requires email in After(lib, secret, Boot(lib, start), run).users
    ensures var w := After(lib, secret, Boot(lib, start), run);
      w.users[email].email == email && Provenance(lib, w.log, w.users[email], |w.log|)
  {
    AccountableAlong(lib, secret, Boot(lib, start), run);
    var w := After(lib, secret, Boot(lib, start), run);
    assert w.log[..|w.log|] == w.log;
    ProvenanceAt(lib, secret, w, |w.log|, email);
    StoredUsersWereWritten(lib, w.log, email);
  }
}
