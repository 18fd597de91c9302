/** The limiter's bound at the login endpoint: how many wrong passwords any run can try. */
module LoginBound {
  import opened Values
  import opened Contracts
  import opened C = Credentials
  import opened CredentialRuns
  import L = Limiter

  function KeyOfLogin(x: Setup, c: Call): string
    requires c.LoginCall?
  {
    LimiterKey(x.trim(c.slug), x.normalize(c.email))
  }

  /** When logins for the key were refused for bad credentials, since the last one whose
      credentials were good. Lockouts are not among them. */
  function RefusalTimes(x: Setup, calls: seq<Timed>, key: string): seq<int> {
    if calls == [] then []
    else
      var before, last := RefusalTimes(x, calls[..|calls| - 1], key), calls[|calls| - 1];
      if !last.call.LoginCall? || KeyOfLogin(x, last.call) != key then before
      else
        var reply := Decide(x, After(x, calls[..|calls| - 1]), last).reply;
        if reply == Refused(Unauthorized) then before + [last.now]
        else if reply == Refused(RateLimited) then before
        else []
  }

  /** What the limiter sees of the run. */
  function AttemptsOf(x: Setup, calls: seq<Timed>): seq<L.Attempt> {
    if calls == [] then []
    else
      var init, last := calls[..|calls| - 1], calls[|calls| - 1];
      AttemptsOf(x, init) + AttemptOf(x, After(x, init), last)
  }

  function AttemptOf(x: Setup, s: Tables, t: Timed): seq<L.Attempt> {
    match t.call
    case LoginCall(slug, email, password, _) =>
      [L.Login(KeyOfLogin(x, t.call), t.now, Identified(x, s, x.trim(slug), x.normalize(email), password).Some?)]
    case HousekeepingCall => [L.Housekeeping(t.now)]
    case _ => []
  }

  lemma TraceAppend(attempts: seq<L.Attempt>, a: L.Attempt)
    ensures L.TraceOf(attempts + [a]) == L.TraceOf(attempts) + L.CallsOf(L.After(L.TraceOf(attempts)), a)
  {
    assert (attempts + [a])[..|attempts|] == attempts;
  }

  /** One login moves the limiter's table, and is refused, as its attempt says. */
  lemma LoginIsItsAttempt(x: Setup, s: Tables, t: Timed, trace: seq<L.Timed>, key: string)
    requires t.call.LoginCall? && s.limits == L.After(trace)
    ensures var calls := L.CallsOf(s.limits, AttemptOf(x, s, t)[0]);
            var o := Login(x, s, t.call.slug, t.call.email, t.call.password, t.call.secret, t.now);
            && LimitsAfter(s.limits, o.write) == L.After(trace + calls)
            && L.FailureTimes(trace + calls, key)
               == (if KeyOfLogin(x, t.call) != key || o.reply == Refused(RateLimited) then L.FailureTimes(trace, key)
                   else if o.reply == Refused(Unauthorized) then L.FailureTimes(trace, key) + [t.now]
                   else [])
  {
    hide Identified, L.Apply, L.AnswerTo, L.FailureTimes, L.After;
    var own := KeyOfLogin(x, t.call);
    var a := AttemptOf(x, s, t)[0];
    var check := L.Timed(t.now, L.IsLocked(own));
    var then_ := L.Timed(t.now, if a.correct then L.Reset(own) else L.RecordFailure(own));
    L.AfterOne(trace, check);
    L.FailuresOne(trace, check, key);
    L.AfterOne(trace + [check], then_);
    L.FailuresOne(trace + [check], then_, key);
    assert trace + [check, then_] == trace + [check] + [then_];
  }

  lemma HousekeepingIsItsAttempt(x: Setup, s: Tables, t: Timed, trace: seq<L.Timed>, key: string)
    requires t.call.HousekeepingCall? && s.limits == L.After(trace)
    ensures var calls := L.CallsOf(s.limits, L.Housekeeping(t.now));
            LimitsAfter(s.limits, Purge(t.now)) == L.After(trace + calls)
            && L.FailureTimes(trace + calls, key) == L.FailureTimes(trace, key)
  {
    L.AfterOne(trace, L.Timed(t.now, L.Prune));
    L.FailuresOne(trace, L.Timed(t.now, L.Prune), key);
  }

  /** No other call touches the limiter. */
  lemma OthersLeaveLimits(x: Setup, s: Tables, t: Timed)
    requires !t.call.LoginCall? && !t.call.HousekeepingCall?
    ensures Step(x, s, t).limits == s.limits
  {
  }

  lemma LoginStep(x: Setup, s: Tables, t: Timed)
    requires t.call.LoginCall?
    ensures Decide(x, s, t) == Login(x, s, t.call.slug, t.call.email, t.call.password, t.call.secret, t.now)
    ensures Step(x, s, t).limits == LimitsAfter(s.limits, Decide(x, s, t).write)
  {
    hide Login;
  }

  lemma {:induction false} LimiterFollowsTheRun(x: Setup, calls: seq<Timed>, key: string)
    ensures After(x, calls).limits == L.After(L.TraceOf(AttemptsOf(x, calls)))
    ensures RefusalTimes(x, calls, key) == L.FailureTimes(L.TraceOf(AttemptsOf(x, calls)), key)
  {
    hide Decide, Commit, Step, Login, LimitsAfter, L.FailureTimes, L.After, L.TraceOf, L.CallsOf;
    if calls == [] {
      NothingYet(x, key);
    } else {
      var init, t := calls[..|calls| - 1], calls[|calls| - 1];
      LimiterFollowsTheRun(x, init, key);
      var s, attempts := After(x, init), AttemptsOf(x, init);
      if t.call.LoginCall? {
        TraceAppend(attempts, AttemptOf(x, s, t)[0]);
        LoginIsItsAttempt(x, s, t, L.TraceOf(attempts), key);
        LoginStep(x, s, t);
      } else if t.call.HousekeepingCall? {
        TraceAppend(attempts, L.Housekeeping(t.now));
        HousekeepingIsItsAttempt(x, s, t, L.TraceOf(attempts), key);
        HousekeepingPurges(x, s, t);
        PurgeLimits(s, t.now);
      } else {
        OthersLeaveLimits(x, s, t);
        assert attempts + [] == attempts;
      }
    }
  }

  lemma NothingYet(x: Setup, key: string)
    ensures After(x, []).limits == L.After(L.TraceOf(AttemptsOf(x, [])))
    ensures RefusalTimes(x, [], key) == L.FailureTimes(L.TraceOf(AttemptsOf(x, [])), key)
  {
  }

  lemma PurgeLimits(s: Tables, now: int)
    ensures Commit(s, Purge(now)).limits == LimitsAfter(s.limits, Purge(now))
  {
  }

  lemma {:induction false} AttemptsInOrder(x: Setup, calls: seq<Timed>, now: int)
    requires Ordered(calls, now)
    ensures L.InOrder(AttemptsOf(x, calls)) && forall a | a in AttemptsOf(x, calls) :: a.now <= now
  {
    if calls != [] {
      AttemptsInOrder(x, calls[..|calls| - 1], calls[|calls| - 1].now);
    }
  }

  /** In every run of identity calls, between two good logins for a tenant and email: any fifteen
      minutes see at most twenty refused passwords, and any shorter span at most nineteen, however
      logins for others, purges and administration fall in between. */
  lemma GuessesAreBounded(x: Setup, calls: seq<Timed>, now: int, key: string, i: nat, j: nat)
    requires Ordered(calls, now)
    requires i <= j < |RefusalTimes(x, calls, key)|
    ensures var times := RefusalTimes(x, calls, key);
            && (times[j] - times[i] <= L.WINDOW ==> j - i + 1 <= 20)
            && (times[j] - times[i] < L.WINDOW ==> j - i + 1 <= 19)
  {
    AttemptsInOrder(x, calls, now);
    LimiterFollowsTheRun(x, calls, key);
    L.BruteForceBound(AttemptsOf(x, calls), key, i, j);
  }
}
