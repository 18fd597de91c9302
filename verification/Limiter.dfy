/** The login limiter: a fixed-window failure counter per key, kept in one mutable table. */
module Limiter {
  import opened Values

  const MAX_FAILURES: nat := 10

  /** Fifteen minutes, in nanoseconds. */
  const WINDOW := 900_000_000_000

  datatype Window = Window(start: int, failures: nat)

  type Windows = map<string, Window>

  predicate Stale(w: Window, now: int) {
    now - w.start >= WINDOW
  }

  /** The window that still counts for the key, if there is one. */
  function Live(m: Windows, key: string, now: int): Option<Window> {
    if key in m && !Stale(m[key], now) then Some(m[key]) else None
  }

  predicate Full(w: Option<Window>) {
    w.Some? && w.value.failures >= MAX_FAILURES
  }

  /** The window after one more failure. */
  function Counted(w: Option<Window>, now: int): Window {
    if w.Some? then Window(w.value.start, w.value.failures + 1) else Window(now, 1)
  }

  function Pruned(m: Windows, now: int): Windows {
    map k | k in m && !Stale(m[k], now) :: m[k]
  }

  // ---- calls -----------------------------------------------------------------------------

  datatype Call = IsLocked(key: string) | RecordFailure(key: string) | Reset(key: string) | Prune

  datatype Answer = Locked(yes: bool) | Failures(count: nat) | Done

  datatype Timed = Timed(now: int, call: Call)

  function Apply(m: Windows, t: Timed): Windows {
    match t.call
    case IsLocked(key) => if key in m && Stale(m[key], t.now) then m - {key} else m
    case RecordFailure(key) => m[key := Counted(Live(m, key, t.now), t.now)]
    case Reset(key) => m - {key}
    case Prune => Pruned(m, t.now)
  }

  function AnswerTo(m: Windows, t: Timed): Answer {
    match t.call
    case IsLocked(key) => Locked(Full(Live(m, key, t.now)))
    case RecordFailure(key) => Failures(Counted(Live(m, key, t.now), t.now).failures)
    case Reset(_) => Done
    case Prune => Done
  }

  class LoginLimiter {
    var state: Windows

    constructor ()
      ensures state == map[]
    {
      state := map[];
    }

    method IsLocked(key: string, now: int) returns (locked: bool)
      modifies this
      ensures state == Apply(old(state), Timed(now, Call.IsLocked(key)))
      ensures Answer.Locked(locked) == AnswerTo(old(state), Timed(now, Call.IsLocked(key)))
    {
      if key !in state {
        return false;
      }
      var w := state[key];
      if now - w.start >= WINDOW {
        state := state - {key};
        return false;
      }
      return w.failures >= MAX_FAILURES;
    }

    method RecordFailure(key: string, now: int) returns (count: nat)
      modifies this
      ensures state == Apply(old(state), Timed(now, Call.RecordFailure(key)))
      ensures Failures(count) == AnswerTo(old(state), Timed(now, Call.RecordFailure(key)))
    {
      if key !in state {
        state := state[key := Window(now, 0)];
      }
      if now - state[key].start >= WINDOW {
        state := state[key := Window(now, 0)];
      }
      state := state[key := state[key].(failures := state[key].failures + 1)];
      count := state[key].failures;
    }

    method Reset(key: string)
      modifies this
      ensures forall now :: state == Apply(old(state), Timed(now, Call.Reset(key)))
    {
      state := state - {key};
    }

    /** `retain`: entry by entry, stale windows are dropped. */
    method Prune(now: int)
      modifies this
      ensures state == Apply(old(state), Timed(now, Call.Prune))
    {
      var keys := state.Keys;
      while keys != {}
        invariant keys <= state.Keys <= old(state).Keys
        invariant forall k | k in state :: state[k] == old(state)[k]
        invariant forall k | k in old(state) && k !in keys :: k in state <==> !Stale(old(state)[k], now)
        decreases |keys|
      {
        var k :| k in keys;
        if now - state[k].start >= WINDOW {
          state := state - {k};
        }
        keys := keys - {k};
      }
    }
  }

  // ---- traces ------------------------------------------------------------------------------

  /** The table after the calls, from an empty one. */
  function After(trace: seq<Timed>): Windows {
    if trace == [] then map[] else Apply(After(trace[..|trace| - 1]), trace[|trace| - 1])
  }

  /** The clock never runs backwards, and has reached `now` at the end. */
  ghost predicate Ordered(trace: seq<Timed>, now: int) {
    trace == []
    || (trace[|trace| - 1].now <= now && Ordered(trace[..|trace| - 1], trace[|trace| - 1].now))
  }

  predicate Changes(c: Call, key: string) {
    c == RecordFailure(key) || c == Reset(key)
  }

  /** The calls that record a failure of this key or clear it. */
  function Relevant(trace: seq<Timed>, key: string): seq<Timed> {
    if trace == [] then []
    else
      var last := trace[|trace| - 1];
      Relevant(trace[..|trace| - 1], key) + (if Changes(last.call, key) then [last] else [])
  }

  lemma {:induction false} OrderedLater(trace: seq<Timed>, now: int, later: int)
    requires Ordered(trace, now) && now <= later
    ensures Ordered(trace, later)
  {
  }

  lemma AfterOne(trace: seq<Timed>, t: Timed)
    ensures After(trace + [t]) == Apply(After(trace), t)
  {
  }

  /** A call of another key, a prune or a lock check leaves the live window alone. */
  lemma OthersKeepLive(m: Windows, t: Timed, key: string, now: int)
    requires t.now <= now && !Changes(t.call, key)
    ensures Live(Apply(m, t), key, now) == Live(m, key, now)
  {
  }

  lemma {:induction false} LiveIsRelevant(trace: seq<Timed>, key: string, now: int)
    requires Ordered(trace, now)
    ensures Live(After(trace), key, now) == Live(After(Relevant(trace, key)), key, now)
  {
    if trace != [] {
      var init, last := trace[..|trace| - 1], trace[|trace| - 1];
      if Changes(last.call, key) {
        LiveIsRelevant(init, key, last.now);
        AfterOne(Relevant(init, key), last);
      } else {
        OrderedLater(init, last.now, now);
        LiveIsRelevant(init, key, now);
        OthersKeepLive(After(init), last, key, now);
        assert Relevant(trace, key) == Relevant(init, key);
      }
    }
  }

  /** No call but a key's own failures and resets changes what the key's calls return: pruning,
      lock checks and other keys are unobservable, wherever they occur. */
  lemma AnswersComeFromOwnHistory(trace: seq<Timed>, other: seq<Timed>, key: string, asked: Timed)
    requires Ordered(trace, asked.now) && Ordered(other, asked.now)
    requires Relevant(trace, key) == Relevant(other, key)
    requires asked.call == IsLocked(key) || Changes(asked.call, key)
    ensures AnswerTo(After(trace), asked) == AnswerTo(After(other), asked)
  {
    LiveIsRelevant(trace, key, asked.now);
    LiveIsRelevant(other, key, asked.now);
  }

  /** Two tables that count the same from `now` on, for every key. */
  ghost predicate SameLive(m: Windows, n: Windows, now: int) {
    forall later, key | now <= later :: Live(m, key, later) == Live(n, key, later)
  }

  lemma SameLiveAnswers(m: Windows, n: Windows, t: Timed)
    requires SameLive(m, n, t.now)
    ensures AnswerTo(m, t) == AnswerTo(n, t)
    ensures SameLive(Apply(m, t), Apply(n, t), t.now)
  {
    forall later, key | t.now <= later ensures Live(Apply(m, t), key, later) == Live(Apply(n, t), key, later) {
      assert Live(m, key, t.now) == Live(n, key, t.now) && Live(m, key, later) == Live(n, key, later);
    }
    if t.call != Prune {
      assert Live(m, t.call.key, t.now) == Live(n, t.call.key, t.now);
    }
  }

  // ---- the history of one key -----------------------------------------------------------------

  /** When the key failed since it was last cleared. */
  function FailureTimes(trace: seq<Timed>, key: string): seq<int> {
    if trace == [] then []
    else
      var before, last := FailureTimes(trace[..|trace| - 1], key), trace[|trace| - 1];
      if last.call == Reset(key) then []
      else if last.call == RecordFailure(key) then before + [last.now]
      else before
  }

  /** Which failure opened the window that failure `i` falls in. */
  function Opener(times: seq<int>, i: nat): (s: nat)
    requires i < |times|
    ensures s <= i
    ensures times[i] - times[s] < WINDOW
  {
    if i == 0 then 0
    else
      var s := Opener(times, i - 1);
      if times[i] - times[s] >= WINDOW then i else s
  }

  /** The window a failure history leaves: opened by the last opener, counting from there. */
  function WindowAt(times: seq<int>, now: int): Option<Window> {
    if times == [] then None
    else
      var s := Opener(times, |times| - 1);
      if now - times[s] >= WINDOW then None else Some(Window(times[s], |times| - s))
  }

  lemma {:induction false} OpenerOfPrefix(times: seq<int>, i: nat, t: int)
    requires i < |times|
    ensures Opener(times + [t], i) == Opener(times, i)
  {
    if i > 0 {
      OpenerOfPrefix(times, i - 1, t);
    }
  }

  lemma WindowGrows(times: seq<int>, now: int, later: int)
    requires now <= later
    ensures var w := Counted(WindowAt(times, now), now);
            WindowAt(times + [now], later) == if Stale(w, later) then None else Some(w)
  {
    if times != [] {
      OpenerOfPrefix(times, |times| - 1, now);
    }
  }

  /** The stored state is a function of the key's failure history. */
  lemma {:induction false} StateIsTheHistory(trace: seq<Timed>, key: string, now: int)
    requires Ordered(trace, now)
    ensures Live(After(trace), key, now) == WindowAt(FailureTimes(trace, key), now)
  {
    if trace != [] {
      var init, last := trace[..|trace| - 1], trace[|trace| - 1];
      if Changes(last.call, key) {
        StateIsTheHistory(init, key, last.now);
        WindowGrows(FailureTimes(init, key), last.now, now);
      } else {
        OrderedLater(init, last.now, now);
        StateIsTheHistory(init, key, now);
        OthersKeepLive(After(init), last, key, now);
      }
    }
  }

  // ---- the bound --------------------------------------------------------------------------------

  /** What happens at the login endpoint: an attempt with a right or wrong password, or the
      periodic housekeeping. */
  datatype Attempt = Login(key: string, now: int, correct: bool) | Housekeeping(now: int)

  /** The limiter calls of one attempt: the lock is checked first, and a locked key gets no further. */
  function CallsOf(m: Windows, a: Attempt): seq<Timed> {
    match a
    case Housekeeping(now) => [Timed(now, Prune)]
    case Login(key, now, correct) =>
      var check := Timed(now, IsLocked(key));
      if AnswerTo(m, check) == Locked(true) then [check]
      else [check, Timed(now, if correct then Reset(key) else RecordFailure(key))]
  }

  function TraceOf(attempts: seq<Attempt>): seq<Timed> {
    if attempts == [] then []
    else
      var before := TraceOf(attempts[..|attempts| - 1]);
      before + CallsOf(After(before), attempts[|attempts| - 1])
  }

  ghost predicate InOrder(attempts: seq<Attempt>) {
    forall i, j | 0 <= i <= j < |attempts| :: attempts[i].now <= attempts[j].now
  }

  /** No failure was recorded while ten were already counted, and time moves on. */
  ghost predicate Gated(times: seq<int>) {
    forall i | 0 <= i < |times| :: GatedAt(times, i)
  }

  ghost predicate GatedAt(times: seq<int>, i: nat)
    requires i < |times|
  {
    (i > 0 ==> times[i - 1] <= times[i]) && i - Opener(times, i) < MAX_FAILURES
  }

  lemma GatedGrows(times: seq<int>, t: int)
    requires Gated(times)
    requires times != [] ==> times[|times| - 1] <= t
    requires !Full(WindowAt(times, t))
    ensures Gated(times + [t])
  {
    var longer := times + [t];
    forall i | 0 <= i < |longer| ensures GatedAt(longer, i) {
      if i < |times| {
        assert GatedAt(times, i);
        OpenerOfPrefix(times, i, t);
      } else if i > 0 {
        OpenerOfPrefix(times, i - 1, t);
      }
    }
  }

  lemma OrderedOne(trace: seq<Timed>, t: Timed, now: int)
    requires Ordered(trace, t.now) && t.now <= now
    ensures Ordered(trace + [t], now)
  {
  }

  lemma FailuresOne(trace: seq<Timed>, t: Timed, key: string)
    ensures FailureTimes(trace + [t], key)
            == if t.call == Reset(key) then []
               else if t.call == RecordFailure(key) then FailureTimes(trace, key) + [t.now]
               else FailureTimes(trace, key)
  {
  }

  lemma {:induction false} FailuresAreBy(trace: seq<Timed>, key: string, now: int)
    requires Ordered(trace, now)
    ensures var times := FailureTimes(trace, key); times != [] ==> times[|times| - 1] <= now
  {
    if trace != [] {
      OrderedLater(trace[..|trace| - 1], trace[|trace| - 1].now, now);
      FailuresAreBy(trace[..|trace| - 1], key, now);
    }
  }

  /** A call that is no failure of the key keeps the gate; a failure does if the key is not full. */
  lemma CallKeepsGate(trace: seq<Timed>, t: Timed, key: string)
    requires Ordered(trace, t.now) && Gated(FailureTimes(trace, key))
    requires t.call == RecordFailure(key) ==> !Full(Live(After(trace), key, t.now))
    ensures Ordered(trace + [t], t.now) && Gated(FailureTimes(trace + [t], key))
  {
    OrderedOne(trace, t, t.now);
    FailuresOne(trace, t, key);
    if t.call == RecordFailure(key) {
      FailuresAreBy(trace, key, t.now);
      StateIsTheHistory(trace, key, t.now);
      GatedGrows(FailureTimes(trace, key), t.now);
    }
  }

  lemma AttemptKeepsGate(trace: seq<Timed>, a: Attempt, key: string)
    requires Ordered(trace, a.now) && Gated(FailureTimes(trace, key))
    ensures Ordered(trace + CallsOf(After(trace), a), a.now)
    ensures Gated(FailureTimes(trace + CallsOf(After(trace), a), key))
  {
    var calls := CallsOf(After(trace), a);
    CallKeepsGate(trace, calls[0], key);
    if |calls| == 2 {
      var checked := trace + [calls[0]];
      AfterOne(trace, calls[0]);
      OthersKeepLive(After(trace), calls[0], a.key, a.now);
      CallKeepsGate(checked, calls[1], key);
      assert trace + calls == checked + [calls[1]];
    } else {
      assert trace + calls == trace + [calls[0]];
    }
  }

  lemma {:induction false} LoginsAreGated(attempts: seq<Attempt>, key: string)
    requires InOrder(attempts)
    ensures Gated(FailureTimes(TraceOf(attempts), key))
    ensures attempts == [] ==> TraceOf(attempts) == []
    ensures attempts != [] ==> Ordered(TraceOf(attempts), attempts[|attempts| - 1].now)
  {
    if attempts != [] {
      var init, last := attempts[..|attempts| - 1], attempts[|attempts| - 1];
      LoginsAreGated(init, key);
      if init != [] {
        OrderedLater(TraceOf(init), init[|init| - 1].now, last.now);
      }
      AttemptKeepsGate(TraceOf(init), last, key);
    }
  }

  lemma {:induction false} GatedMonotone(times: seq<int>, i: nat, j: nat)
    requires Gated(times) && i <= j < |times|
    ensures times[i] <= times[j]
    decreases j - i
  {
    if i < j {
      assert GatedAt(times, j);
      GatedMonotone(times, i, j - 1);
    }
  }

  lemma {:induction false} OpenersOpen(times: seq<int>, i: nat)
    requires i < |times|
    ensures Opener(times, Opener(times, i)) == Opener(times, i)
    ensures forall k | Opener(times, i) <= k <= i :: Opener(times, k) == Opener(times, i)
  {
    if i > 0 {
      OpenersOpen(times, i - 1);
    }
  }

  /** Two openers in a row are a window apart, and everything before the later one is strictly
      earlier. */
  lemma OpenerGap(times: seq<int>, s: nat, i: nat)
    requires Gated(times) && 0 < s < |times| && Opener(times, s) == s && i < s
    ensures times[s] - times[Opener(times, s - 1)] >= WINDOW
    ensures times[i] < times[s]
  {
    GatedMonotone(times, i, s - 1);
  }

  /** A span no longer than a window holds at most two windows' worth of failures, and one less
      when it is shorter. */
  lemma GatedBound(times: seq<int>, i: nat, j: nat)
    requires Gated(times) && i <= j < |times|
    ensures times[j] - times[i] <= WINDOW ==> j - i + 1 <= 2 * MAX_FAILURES
    ensures times[j] - times[i] < WINDOW ==> j - i + 1 <= 2 * MAX_FAILURES - 1
  {
    var s := Opener(times, j);
    assert GatedAt(times, j);
    if i < s {
      OpenersOpen(times, j);
      OpenerGap(times, s, i);
      var s' := Opener(times, s - 1);
      assert GatedAt(times, s - 1);
      GatedMonotone(times, s, j);
      if i < s' {
        OpenersOpen(times, s - 1);
        OpenerGap(times, s', i);
      }
    }
  }

  /** Over any run of login attempts and housekeeping, with no success for the key in between:
      any fifteen minutes see at most twenty recorded failures of a key, and any shorter span at
      most nineteen. */
  lemma BruteForceBound(attempts: seq<Attempt>, key: string, i: nat, j: nat)
    requires InOrder(attempts)
    requires i <= j < |FailureTimes(TraceOf(attempts), key)|
    ensures var times := FailureTimes(TraceOf(attempts), key);
            && (times[j] - times[i] <= WINDOW ==> j - i + 1 <= 20)
            && (times[j] - times[i] < WINDOW ==> j - i + 1 <= 19)
  {
    LoginsAreGated(attempts, key);
    GatedBound(FailureTimes(TraceOf(attempts), key), i, j);
  }

  /** Does the failure open a new window? */
  predicate Opens(times: seq<int>, i: nat)
    requires i < |times|
  {
    Opener(times, i) == i
  }

  lemma {:induction false} SameWindow(times: seq<int>, i: nat, k: nat)
    requires Gated(times) && i <= k < |times| && Opens(times, i) && times[k] - times[i] < WINDOW
    ensures Opener(times, k) == i
    decreases k
  {
    if i < k {
      assert GatedAt(times, k);
      SameWindow(times, i, k - 1);
    }
  }

  /** When ten does hold: over failures among which, after the first, none opens a new window; in
      particular over the fifteen minutes counted from a failure that opens one. */
  lemma TenPerWindow(attempts: seq<Attempt>, key: string, i: nat, j: nat)
    requires InOrder(attempts)
    requires i <= j < |FailureTimes(TraceOf(attempts), key)|
    ensures var times := FailureTimes(TraceOf(attempts), key);
            && ((forall k | i < k <= j :: !Opens(times, k)) ==> j - i + 1 <= 10)
            && (Opens(times, i) && times[j] - times[i] < WINDOW ==> j - i + 1 <= 10)
  {
    var times := FailureTimes(TraceOf(attempts), key);
    LoginsAreGated(attempts, key);
    assert GatedAt(times, j);
    OpenersOpen(times, j);
    if Opens(times, i) && times[j] - times[i] < WINDOW {
      SameWindow(times, i, j);
    }
    assert i < Opener(times, j) ==> Opens(times, Opener(times, j));
  }

  function Burst(key: string, now: int, n: nat): seq<Attempt> {
    if n == 0 then [] else Burst(key, now, n - 1) + [Login(key, now, false)]
  }

  function Repeat(t: int, n: nat): (r: seq<int>)
    ensures |r| == n && forall i | 0 <= i < n :: r[i] == t
  {
    if n == 0 then [] else Repeat(t, n - 1) + [t]
  }

  /** What a run has recorded for the key, and the window stored for it. */
  ghost predicate Recorded(attempts: seq<Attempt>, key: string, times: seq<int>, w: Window) {
    var trace := TraceOf(attempts);
    FailureTimes(trace, key) == times && key in After(trace) && After(trace)[key] == w
  }

  function Grown(w: Window, now: int, n: nat): Window {
    if Stale(w, now) then Window(now, n) else Window(w.start, w.failures + n)
  }

  lemma OneMoreFailure(attempts: seq<Attempt>, key: string, now: int)
    requires !Full(Live(After(TraceOf(attempts)), key, now))
    ensures Recorded(attempts + [Login(key, now, false)], key, FailureTimes(TraceOf(attempts), key) + [now],
                     Counted(Live(After(TraceOf(attempts)), key, now), now))
  {
    var last := Login(key, now, false);
    assert (attempts + [last])[..|attempts|] == attempts;
    var trace := TraceOf(attempts);
    var check, fail := Timed(now, IsLocked(key)), Timed(now, RecordFailure(key));
    assert TraceOf(attempts + [last]) == trace + [check] + [fail];
    FailuresOne(trace, check, key);
    FailuresOne(trace + [check], fail, key);
    AfterOne(trace, check);
    AfterOne(trace + [check], fail);
    OthersKeepLive(After(trace), check, key, now);
  }

  lemma NextFailure(attempts: seq<Attempt>, key: string, times: seq<int>, w: Window, now: int)
    requires Recorded(attempts, key, times, w) && Grown(w, now, 1).failures <= MAX_FAILURES
    ensures Recorded(attempts + [Login(key, now, false)], key, times + [now], Grown(w, now, 1))
  {
    OneMoreFailure(attempts, key, now);
  }

  /** While fewer than ten failures count, every wrong password is recorded. */
  lemma {:induction false} BurstIsRecorded(
    attempts: seq<Attempt>, key: string, times: seq<int>, w: Window, now: int, n: nat)
    requires Recorded(attempts, key, times, w)
    requires 0 < n && Grown(w, now, n).failures <= MAX_FAILURES
    ensures Recorded(attempts + Burst(key, now, n), key, times + Repeat(now, n), Grown(w, now, n))
  {
    var last := [Login(key, now, false)];
    if n == 1 {
      NextFailure(attempts, key, times, w, now);
      assert Burst(key, now, 1) == [] + last == last && Repeat(now, 1) == [] + [now] == [now];
    } else {
      BurstIsRecorded(attempts, key, times, w, now, n - 1);
      NextFailure(attempts + Burst(key, now, n - 1), key, times + Repeat(now, n - 1), Grown(w, now, n - 1), now);
      AppendedBurst(attempts, key, times, now, n);
    }
  }

  lemma AppendedBurst(attempts: seq<Attempt>, key: string, times: seq<int>, now: int, n: nat)
    requires n > 0
    ensures attempts + Burst(key, now, n - 1) + [Login(key, now, false)] == attempts + Burst(key, now, n)
    ensures times + Repeat(now, n - 1) + [now] == times + Repeat(now, n)
  {
  }

  lemma {:induction false} FirstBurst(key: string, now: int, n: nat)
    requires 0 < n <= MAX_FAILURES
    ensures Recorded(Burst(key, now, n), key, Repeat(now, n), Window(now, n))
  {
    var last := Login(key, now, false);
    if n == 1 {
      assert Burst(key, now, 1) == [] + [last] && Repeat(now, 1) == [] + [now];
      OneMoreFailure([], key, now);
    } else {
      FirstBurst(key, now, n - 1);
      OneMoreFailure(Burst(key, now, n - 1), key, now);
    }
  }

  lemma {:induction false} BurstTimes(key: string, now: int, n: nat)
    ensures |Burst(key, now, n)| == n && forall a | a in Burst(key, now, n) :: a.now == now
  {
    if n > 0 {
      BurstTimes(key, now, n - 1);
    }
  }

  lemma BurstsInOrder(key: string, first: int, a: nat, second: int, b: nat, third: int, c: nat)
    requires first <= second <= third
    ensures InOrder(Burst(key, first, a) + Burst(key, second, b) + Burst(key, third, c))
  {
    BurstTimes(key, first, a);
    BurstTimes(key, second, b);
    BurstTimes(key, third, c);
  }

  /** Nineteen in a nanosecond: one failure opens a window, nine more arrive in its last instant
      and ten in the next window's first. */
  lemma NineteenAreReached(key: string)
    ensures var attempts := Burst(key, 0, 1) + Burst(key, WINDOW - 1, 9) + Burst(key, WINDOW, 10);
            && InOrder(attempts)
            && FailureTimes(TraceOf(attempts), key) == Repeat(0, 1) + Repeat(WINDOW - 1, 9) + Repeat(WINDOW, 10)
  {
    BurstsInOrder(key, 0, 1, WINDOW - 1, 9, WINDOW, 10);
    FirstBurst(key, 0, 1);
    BurstIsRecorded(Burst(key, 0, 1), key, Repeat(0, 1), Window(0, 1), WINDOW - 1, 9);
    BurstIsRecorded(Burst(key, 0, 1) + Burst(key, WINDOW - 1, 9), key, Repeat(0, 1) + Repeat(WINDOW - 1, 9),
                    Window(0, 10), WINDOW, 10);
  }

  /** Twenty exactly fifteen minutes apart: ten in the first instant of each of two windows. */
  lemma TwentyAreReached(key: string)
    ensures var attempts := Burst(key, 0, 10) + Burst(key, WINDOW, 10);
            && InOrder(attempts)
            && FailureTimes(TraceOf(attempts), key) == Repeat(0, 10) + Repeat(WINDOW, 10)
  {
    BurstsInOrder(key, 0, 10, WINDOW, 10, WINDOW, 0);
    assert Burst(key, 0, 10) + Burst(key, WINDOW, 10) + Burst(key, WINDOW, 0)
      == Burst(key, 0, 10) + Burst(key, WINDOW, 10);
    FirstBurst(key, 0, 10);
    BurstIsRecorded(Burst(key, 0, 10), key, Repeat(0, 10), Window(0, 10), WINDOW, 10);
  }
}
