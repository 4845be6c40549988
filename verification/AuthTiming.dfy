/**
 How long after its authorizing login a user can be written. The guard reads the clock before
 the body is read, so the expiry bounds the admission and not the write.
 */
module AuthTiming {
  import opened Bytes
  import opened Sequences
  import opened Token
  import opened AuthService
  import opened AuthProvenance

  /** Every create was written within a delay of its admission. */
  ghost predicate Prompt(log: seq<Entry>, delay: nat) {
    forall k :: 0 <= k < |log| && log[k].UserCreated? && log[k].admission < |log| ==>
      log[k].at <= log[log[k].admission].at + delay
  }

  /** Every create was written less than a bound after a login that authorizes it. */
  ghost predicate WrittenWithin(lib: Libraries, log: seq<Entry>, bound: int) {
    forall k :: 0 <= k < |log| && log[k].UserCreated? ==>
      exists j: nat :: AuthorizedBy(lib, log, k, j) && log[k].at < log[j].at + bound
  }

  ghost predicate AlwaysWrittenWithin(lib: Libraries, secret: Bytes, delay: nat, bound: int) {
    forall start: int, run ::
      PossibleRun(lib, secret, Boot(lib, start), run) && Prompt(After(lib, secret, Boot(lib, start), run).log, delay)
      ==> WrittenWithin(lib, After(lib, secret, Boot(lib, start), run).log, bound)
  }

  lemma PromptWrites(lib: Libraries, secret: Bytes, w: World, delay: nat, bound: int)
    requires Accountable(lib, secret, w) && Prompt(w.log, delay) && 3_601_000_000_000 + delay <= bound
    ensures WrittenWithin(lib, w.log, bound)
  {
    forall k | 0 <= k < |w.log| && w.log[k].UserCreated?
      ensures exists j: nat :: AuthorizedBy(lib, w.log, k, j) && w.log[k].at < w.log[j].at + bound
    {
      var j := CreateIsAuthorized(lib, secret, w, k);
    }
  }

  lemma {:induction false} RunExtends(lib: Libraries, secret: Bytes, w: World, run: seq<(Step, int)>,
      step: Step, now: int)
    requires PossibleRun(lib, secret, w, run) && Possible(lib, secret, After(lib, secret, w, run), step, now)
    ensures PossibleRun(lib, secret, w, run + [(step, now)])
    ensures After(lib, secret, w, run + [(step, now)]) == Next(lib, secret, After(lib, secret, w, run), step, now)
    decreases |run|
  {
    if run == [] {
      assert (run + [(step, now)])[1..] == [];
    } else {
      assert (run + [(step, now)])[1..] == run[1..] + [(step, now)];
      RunExtends(lib, secret, Next(lib, secret, w, run[0].0, run[0].1), run[1..], step, now);
    }
  }

  /** The seeded admin logs in at time zero. */
  lemma SeedLogsIn(lib: Libraries, secret: Bytes) returns (run: seq<(Step, int)>, token: Bytes)
    requires JsonFaithful(lib)
    ensures NewToken(lib, secret, Seed(lib).id, Seed(lib).role, HOUR, 0) == Some(token)
    ensures PossibleRun(lib, secret, Boot(lib, 0), run)
    ensures After(lib, secret, Boot(lib, 0), run)
         == World(SeededUsers(lib), 0, [UserFound(0, Seed(lib)), TokenIssued(0, 0, token)], {})
  {
    var boot, lookup := Boot(lib, 0), LookUp(Some(Credentials(Seed(lib).email, "changeme")));
    run := [];
    RunExtends(lib, secret, boot, run, lookup, 0);
    run := run + [(lookup, 0)];
    var found := After(lib, secret, boot, run);
    assert found == World(SeededUsers(lib), 0, [UserFound(0, Seed(lib))], {0});
    assert JsonRoundTrips(lib, IssuedClaims(Seed(lib).id, Seed(lib).role, HOUR, 0));
    token := NewToken(lib, secret, Seed(lib).id, Seed(lib).role, HOUR, 0).value;
    RunExtends(lib, secret, boot, run, Issue(0), 0);
    run := run + [(Issue(0), 0)];
  }

  /** In the last nanosecond of its expiry second the admin's token admits a create. */
  lemma SeedIsAdmitted(lib: Libraries, secret: Bytes, w: World, token: Bytes)
    requires JsonFaithful(lib) && NewToken(lib, secret, Seed(lib).id, Seed(lib).role, HOUR, 0) == Some(token)
    requires w == World(SeededUsers(lib), 0, [UserFound(0, Seed(lib)), TokenIssued(0, 0, token)], {})
    ensures var step, now := Admit("POST", Bearing(token)), 3_600_999_999_999;
      && Possible(lib, secret, w, step, now)
      && Next(lib, secret, w, step, now)
         == World(w.users, now, w.log + [AdminAdmitted(now, "POST", Bearing(token))], {2})
  {
    var authorization, now := Bearing(token), 3_600_999_999_999;
    assert authorization[|BEARER|..] == token;
    assert w.log[1].TokenIssued? && w.log[1].token == token;
    assert AdminLogin(w.log, 1, authorization, now);
    LiveLoginAccepted(lib, secret, w.log, 1, authorization, now);
  }

  /** A run whose create is written any delay after its admission in the token's last moment. */
  lemma LateWrite(lib: Libraries, secret: Bytes, delay: nat) returns (run: seq<(Step, int)>)
    requires JsonFaithful(lib)
    ensures PossibleRun(lib, secret, Boot(lib, 0), run)
    ensures var log := After(lib, secret, Boot(lib, 0), run).log;
      && |log| == 4 && log[0].UserFound? && log[2].AdminAdmitted?
      && log[1].TokenIssued? && log[1].at == 0
      && log[3].UserCreated? && log[3].admission == 2
      && log[3].at == log[2].at + delay == 3_600_999_999_999 + delay
  {
    var boot := Boot(lib, 0);
    var token: Bytes;
    run, token := SeedLogsIn(lib, secret);
    var admit, last := Admit("POST", Bearing(token)), 3_600_999_999_999;
    SeedIsAdmitted(lib, secret, After(lib, secret, boot, run), token);
    RunExtends(lib, secret, boot, run, admit, last);
    run := run + [(admit, last)];
    var complete := Complete(2, Some(NewUser("", "", "")));
    RunExtends(lib, secret, boot, run, complete, last + delay);
    run := run + [(complete, last + delay)];
  }

  /**
   When creates are written within a delay of their admission, all of them are written less than
   a bound after an authorizing login exactly when the bound is at least an hour, a second and the
   delay. With no limit on reading the body there is no bound.
   */
  lemma WriteBoundExactly(lib: Libraries, secret: Bytes, delay: nat, bound: int)
    requires JsonFaithful(lib)
    ensures AlwaysWrittenWithin(lib, secret, delay, bound) <==> 3_601_000_000_000 + delay <= bound
  {
    if 3_601_000_000_000 + delay <= bound {
      forall start: int, run | PossibleRun(lib, secret, Boot(lib, start), run)
                               && Prompt(After(lib, secret, Boot(lib, start), run).log, delay)
        ensures WrittenWithin(lib, After(lib, secret, Boot(lib, start), run).log, bound)
      {
        AccountableAlong(lib, secret, Boot(lib, start), run);
        PromptWrites(lib, secret, After(lib, secret, Boot(lib, start), run), delay, bound);
      }
    }
    if AlwaysWrittenWithin(lib, secret, delay, bound) {
      var run := LateWrite(lib, secret, delay);
      var log := After(lib, secret, Boot(lib, 0), run).log;
      assert Prompt(log, delay);
      assert WrittenWithin(lib, log, bound);
      var j: nat :| AuthorizedBy(lib, log, 3, j) && log[3].at < log[j].at + bound;
      assert j == 1;
    }
  }
}
