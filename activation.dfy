/**
 * The activation worker's two bounded loops, apart from the controller state they
 * run beside: the exponential back-off after a failed version check, and the
 * activation poll after a successful one. The worker's reads of the device state
 * (made while the reactor may change it) are answers of an oracle `idleAt`, indexed
 * by the number of reads made so far; the OTA server's answers to `Activate` are
 * likewise an oracle `activate`, indexed by the number of calls made so far.
 */
module Activation {
  import opened Types

  /** Consecutive failed checks after which the version check gives up. */
  const MaxRetry: nat := 10

  /** Seconds announced and waited after the first failed check. */
  const InitialRetryDelay: nat := 10

  /** Calls of Activate in one poll. */
  const MaxActivateCalls: nat := 10

  function Pow2(n: nat): (r: nat)
    ensures r >= 1
  {
    if n == 0 then 1 else 2 * Pow2(n - 1)
  }

  /** The delay, in seconds, announced and waited after the k-th consecutive failed check. */
  function RetryDelay(k: nat): (r: nat)
    requires k >= 1
    ensures r >= InitialRetryDelay
    ensures k > 1 ==> r == 2 * RetryDelay(k - 1)
  {
    InitialRetryDelay * Pow2(k - 1)
  }

  /** The retry delay never shrinks as the failures accumulate. */
  lemma {:induction false} RetryDelayMonotone(j: nat, k: nat)
    requires 1 <= j <= k
    ensures RetryDelay(j) <= RetryDelay(k)
  {
    if j < k {
      RetryDelayMonotone(j, k - 1);
      assert RetryDelay(k) == 2 * RetryDelay(k - 1);
    }
  }

  /** The delays a failed check can announce: those of the first nine consecutive failures. */
  function RetryDelays(): (r: set<nat>)
    ensures forall k :: 1 <= k < MaxRetry ==> RetryDelay(k) in r
    ensures forall d :: d in r ==> InitialRetryDelay <= d <= RetryDelay(MaxRetry - 1)
  {
    forall k | 1 <= k < MaxRetry ensures RetryDelay(k) <= RetryDelay(MaxRetry - 1) {
      RetryDelayMonotone(k, MaxRetry - 1);
    }
    set k: nat | 1 <= k < MaxRetry :: RetryDelay(k)
  }

  /** Number of consecutive failed checks at the end of a reply history. */
  function TrailingFailures(rs: seq<CheckReply>): (r: nat)
    ensures r <= |rs|
  {
    if rs == [] then 0
    else if rs[|rs| - 1].CheckFailed? then TrailingFailures(rs[..|rs| - 1]) + 1
    else 0
  }

  /** The last TrailingFailures(rs) checks of `rs` failed, and the one before them, if any, succeeded. */
  lemma {:induction false} TrailingFailuresMeans(rs: seq<CheckReply>)
    ensures forall j :: |rs| - TrailingFailures(rs) <= j < |rs| ==> rs[j].CheckFailed?
    ensures TrailingFailures(rs) < |rs| ==> rs[|rs| - TrailingFailures(rs) - 1].CheckOk?
  {
    if rs != [] && rs[|rs| - 1].CheckFailed? {
      var init := rs[..|rs| - 1];
      TrailingFailuresMeans(init);
      assert forall j :: 0 <= j < |init| ==> init[j] == rs[j];
    }
  }

  /** A failure adds one to the run of failures; a success ends it. */
  lemma TrailingFailuresSnoc(rs: seq<CheckReply>, x: CheckReply)
    ensures TrailingFailures(rs + [x]) == if x.CheckFailed? then TrailingFailures(rs) + 1 else 0
  {
    assert (rs + [x])[..|rs|] == rs;
  }

  /**
   * The wait, in seconds, that follows the last check of the history `rs`: none after a
   * success, none after the tenth failure in a row, else the delay of that failure.
   */
  function WaitAfter(rs: seq<CheckReply>): nat
  {
    var k := TrailingFailures(rs);
    if k == 0 || k >= MaxRetry then 0 else RetryDelay(k)
  }

  /** A success resets the run of failures, and no wait follows it. */
  lemma WaitAfterSuccess(rs: seq<CheckReply>, info: VersionInfo)
    ensures TrailingFailures(rs + [CheckOk(info)]) == 0 && WaitAfter(rs + [CheckOk(info)]) == 0
  {
    TrailingFailuresSnoc(rs, CheckOk(info));
  }

  /**
   * A failure below the limit waits ten seconds when it follows a success (or starts the
   * history), and twice the previous wait when it follows another failure.
   */
  lemma WaitAfterFailure(rs: seq<CheckReply>, code: int)
    requires TrailingFailures(rs) + 1 < MaxRetry
    ensures WaitAfter(rs + [CheckFailed(code)]) ==
      if TrailingFailures(rs) == 0 then InitialRetryDelay else 2 * WaitAfter(rs)
  {
    TrailingFailuresSnoc(rs, CheckFailed(code));
  }

  /** The tenth failure in a row is followed by no wait. */
  lemma WaitAfterTenth(rs: seq<CheckReply>, code: int)
    requires TrailingFailures(rs) + 1 == MaxRetry
    ensures TrailingFailures(rs + [CheckFailed(code)]) == MaxRetry && WaitAfter(rs + [CheckFailed(code)]) == 0
  {
    TrailingFailuresSnoc(rs, CheckFailed(code));
  }

  /** The wait that follows each check of the history `rs`, in order. */
  function Waits(rs: seq<CheckReply>): (r: seq<nat>)
    ensures |r| == |rs|
  {
    seq(|rs|, j requires 0 <= j < |rs| => WaitAfter(rs[..j + 1]))
  }

  /** One more check adds the wait that follows it. */
  lemma WaitsSnoc(rs: seq<CheckReply>, x: CheckReply)
    ensures Waits(rs + [x]) == Waits(rs) + [WaitAfter(rs + [x])]
  {
    var long, short := Waits(rs + [x]), Waits(rs) + [WaitAfter(rs + [x])];
    forall j | 0 <= j < |rs| + 1 ensures long[j] == short[j] {
      if j < |rs| {
        assert (rs + [x])[..j + 1] == rs[..j + 1];
      } else {
        assert (rs + [x])[..j + 1] == rs + [x];
      }
    }
  }

  /** The reply of the last successful check in `rs`, or `before` if none succeeded. */
  /** Every wait that follows a check is none or one of the announced delays. */
  lemma WaitsAnnounced(rs: seq<CheckReply>)
    ensures forall j :: 0 <= j < |rs| ==> Waits(rs)[j] == 0 || Waits(rs)[j] in RetryDelays()
  {
    forall j | 0 <= j < |rs| ensures Waits(rs)[j] == 0 || Waits(rs)[j] in RetryDelays() {
      var k := TrailingFailures(rs[..j + 1]);
      assert Waits(rs)[j] == WaitAfter(rs[..j + 1]);
      assert 0 < k < MaxRetry ==> RetryDelay(k) in RetryDelays();
    }
  }

  /** One more check in the history `rs[..i]`: the run of failures, the waits and the last success, one step on. */
  lemma HistoryStep(rs: seq<CheckReply>, i: nat, before: Option<VersionInfo>)
    requires i < |rs|
    ensures TrailingFailures(rs[..i + 1]) == if rs[i].CheckFailed? then TrailingFailures(rs[..i]) + 1 else 0
    ensures Waits(rs[..i + 1]) == Waits(rs[..i]) + [WaitAfter(rs[..i + 1])]
    ensures LastOk(rs[..i + 1], before) == if rs[i].CheckOk? then Some(rs[i].info) else LastOk(rs[..i], before)
  {
    assert rs[..i + 1] == rs[..i] + [rs[i]];
    assert rs[..i + 1][..i] == rs[..i];
    TrailingFailuresSnoc(rs[..i], rs[i]);
    WaitsSnoc(rs[..i], rs[i]);
  }

  function LastOk(rs: seq<CheckReply>, before: Option<VersionInfo>): (r: Option<VersionInfo>)
    ensures r != before ==> r.Some? && exists j :: 0 <= j < |rs| && rs[j] == CheckOk(r.value)
  {
    if rs == [] then before
    else if rs[|rs| - 1].CheckOk? then Some(rs[|rs| - 1].info)
    else LastOk(rs[..|rs| - 1], before)
  }

  /**
   * The wait after a failed check: up to `delay` one-second sleeps, each followed by a
   * read of the device state, stopping early at the first read that finds Idle.
   * Returns the number of sleeps, which is also the number of reads made.
   */
  method BackoffWait(delay: nat, idleAt: nat -> bool, p0: nat) returns (waited: nat)
    ensures waited <= delay
    ensures 0 < delay ==> 0 < waited
    // every read before the last one found a state other than Idle
    ensures forall k :: p0 <= k < p0 + waited - 1 ==> !idleAt(k)
    // the wait is cut short only by a read that found Idle
    ensures waited < delay ==> idleAt(p0 + waited - 1)
  {
    waited := 0;
    while waited < delay
      invariant waited <= delay
      invariant forall k :: p0 <= k < p0 + waited ==> !idleAt(k)
    {
      waited := waited + 1;
      if idleAt(p0 + waited - 1) {
        break;
      }
    }
  }

  /** How long the poll sleeps after an Activate answer other than success. */
  function ActivateWait(r: ActivateResult): (ms: nat)
    ensures r == ActivateTimeout ==> ms == 3000
    ensures r.ActivateError? ==> ms == 10000
  {
    if r == ActivateTimeout then 3000 else 10000
  }

  /** The answers of `n` consecutive Activate calls, the first being call number `a0`. */
  function Answers(activate: nat -> ActivateResult, a0: nat, n: nat): (r: seq<ActivateResult>)
    ensures |r| == n
    ensures forall j :: 0 <= j < n ==> r[j] == activate(a0 + j)
  {
    seq(n, j requires 0 <= j < n => activate(a0 + j))
  }

  /** The log of one Activate call: the call, then the sleep unless it succeeded. */
  function CallLog(r: ActivateResult): seq<Effect>
  {
    [ActivateCalled] + (if r == ActivateOk then [] else [Slept(ActivateWait(r))])
  }

  /** The log of a poll that received the answers `rs`, in order. */
  function PollLog(rs: seq<ActivateResult>): seq<Effect>
  {
    if rs == [] then [] else PollLog(rs[..|rs| - 1]) + CallLog(rs[|rs| - 1])
  }

  /** Number of Activate calls recorded in a log. */
  function Calls(log: seq<Effect>): nat
  {
    if log == [] then 0 else Calls(log[..|log| - 1]) + (if log[|log| - 1] == ActivateCalled then 1 else 0)
  }

  lemma {:induction false} CallsAppend(a: seq<Effect>, b: seq<Effect>)
    ensures Calls(a + b) == Calls(a) + Calls(b)
  {
    if b == [] {
      assert a + b == a;
    } else {
      assert (a + b)[..|a + b| - 1] == a + b[..|b| - 1];
      CallsAppend(a, b[..|b| - 1]);
    }
  }

  /**
   * A poll log records exactly one Activate call per answer, and nothing but calls
   * and the 3000 ms or 10000 ms sleeps.
   */
  lemma {:induction false} PollLogShape(rs: seq<ActivateResult>)
    ensures Calls(PollLog(rs)) == |rs|
    ensures forall e :: e in PollLog(rs) ==> e == ActivateCalled || e == Slept(3000) || e == Slept(10000)
  {
    if rs != [] {
      var init := rs[..|rs| - 1];
      var r := rs[|rs| - 1];
      PollLogShape(init);
      CallsAppend(PollLog(init), CallLog(r));
      if r == ActivateOk {
        assert CallLog(r) == [ActivateCalled];
      } else {
        assert CallLog(r) == [ActivateCalled, Slept(ActivateWait(r))];
        assert CallLog(r)[..1] == [ActivateCalled];
        assert [ActivateCalled][..0] == [];
        assert Calls([ActivateCalled]) == 1;
      }
    }
  }

  /**
   * The activation poll: call Activate up to ten times; stop on success; otherwise
   * sleep 3000 ms on a timeout and 10000 ms on any other error, then read the device
   * state and stop if it is Idle. Returns the calls made, the state reads made and
   * the log of calls and sleeps.
   */
  method PollActivation(activate: nat -> ActivateResult, idleAt: nat -> bool, a0: nat, p0: nat)
    returns (calls: nat, polls: nat, log: seq<Effect>)
    ensures 1 <= calls <= MaxActivateCalls
    // every call but the last failed and was followed by a read that did not find Idle
    ensures forall k :: a0 <= k < a0 + calls - 1 ==> activate(k) != ActivateOk
    ensures forall k :: p0 <= k < p0 + calls - 1 ==> !idleAt(k)
    // a read follows every failed call and no successful one
    ensures polls == if activate(a0 + calls - 1) == ActivateOk then calls - 1 else calls
    // the poll ends early only on success or on a read that found Idle
    ensures calls < MaxActivateCalls ==> activate(a0 + calls - 1) == ActivateOk || idleAt(p0 + calls - 1)
    ensures log == PollLog(Answers(activate, a0, calls))
  {
    calls, polls, log := 0, 0, [];
    while calls < MaxActivateCalls
      invariant calls <= MaxActivateCalls
      invariant polls == calls
      invariant forall k :: a0 <= k < a0 + calls ==> activate(k) != ActivateOk
      invariant forall k :: p0 <= k < p0 + calls ==> !idleAt(k)
      invariant log == PollLog(Answers(activate, a0, calls))
    {
      var r := activate(a0 + calls);
      ghost var before := Answers(activate, a0, calls);
      assert Answers(activate, a0, calls + 1) == before + [r];
      assert (before + [r])[..calls] == before;
      calls := calls + 1;
      log := log + CallLog(r);
      if r == ActivateOk {
        break;
      }
      polls := polls + 1;
      if idleAt(p0 + calls - 1) {
        break;
      }
    }
  }
}
