/**
 * One pass of the scheduler's `while True` loop (visa.py lines 315-379).
 * Everything the outside world decides during the pass (clock readings,
 * the login form, the landmark probe, the portal's replies, the random wait)
 * is collected in an `Oracle`; the pass is a function of the configuration,
 * the loop's variables and that oracle.
 */
module PollLoop {
  import opened Results
  import opened Effects
  import opened Portal
  import opened SlotSelector
  import opened Session
  import opened Jitter
  import opened Reschedule

  /** `hour = 60 * minute` seconds. */
  const Hour: nat := 3600

  /** The timing and window settings read from `config.ini`, in whole seconds and hours. */
  datatype Config = Config(
    window: Window,
    retryLo: nat,
    retryHi: nat,
    workLimitHours: nat,
    workCooldownHours: nat,
    banCooldownHours: nat)

  /** The loop's variables `t0`, `total_time`, `Req_count` and `first_loop`. */
  datatype RunState = RunState(t0: int, totalTime: int, reqCount: int, firstLoop: bool)

  /** The outside world's answers during one pass. */
  datatype Oracle = Oracle(
    clock0: int,                   // time.time() when the counters are reset
    resetLogin: Outcome,           // start_process at the fresh start
    probe: Probe,                  // the landmark probe of ensure_logged_in
    relogin: Outcome,              // start_process when the probe fails
    dates: Reply<seq<DateEntry>>,  // the dates endpoint
    retrySeed: nat,                // the random source behind randint
    clock1: int,                   // time.time() after a pass without a match
    claim: ClaimReply)             // the portal during a claim

  /**
   * `Continue`: the loop goes round again. `Stop`: the loop broke with
   * `END_MSG_TITLE` and `msg`, and `effects` include the shared teardown.
   * `Crash`: an exception escaped the loop, so no teardown ran.
   */
  datatype StepResult =
    | Continue(next: RunState, effects: seq<Effect>)
    | Stop(title: string, msg: string, effects: seq<Effect>)
    | Crash(error: string, effects: seq<Effect>)

  /** Lines 381-386: notify the final title, sign out, release the browser. */
  function Teardown(title: string): seq<Effect> {
    [Notify(title), SignOut, Quit]
  }

  function Finish(title: string, msg: string, fx: seq<Effect>): StepResult {
    Stop(title, msg, fx + Teardown(title))
  }

  /** The `except Exception` handler: break with title "EXCEPTION". */
  function Abort(error: string, fx: seq<Effect>): StepResult {
    Finish("EXCEPTION", "Break the loop after exception: " + error + "\n", fx)
  }

  /** The date returned by the selector counts only when it is truthy. */
  predicate Truthy(date: Option<string>) {
    date.Some? && |date.value| > 0
  }

  /** The variables after the reset (if due) and the `Req_count += 1` of this pass. */
  function Counted(s: RunState, o: Oracle): RunState {
    if s.firstLoop then RunState(o.clock0, 0, 1, false) else s.(reqCount := s.reqCount + 1)
  }

  /** Seconds a pass may sleep: a ban cooldown, a work cooldown, or a retry wait. */
  predicate AllowedSleep(cfg: Config, seconds: nat) {
    || seconds == cfg.banCooldownHours * Hour
    || seconds == cfg.workCooldownHours * Hour
    || cfg.retryLo <= seconds <= cfg.retryHi
  }

  /** The body of the `try` block, given the counted variables and the effects so far. */
  function Poll(cfg: Config, s: RunState, o: Oracle, fx: seq<Effect>): StepResult {
    var login := EnsureLoggedIn(o.probe, o.relogin);
    var fx := fx + login.effects;
    if login.result.Err? then Abort(login.result.error, fx)
    else match GetDate(o.dates)
      case Err(e) => Abort(e, fx)
      case Ok(dates) =>
        if dates.None? || |dates.value| == 0 then
          // Ban: the portal answered with nothing.
          Continue(s.(firstLoop := true), fx + [Notify("BAN"), SignOut, Sleep(cfg.banCooldownHours * Hour)])
        else match GetAvailableDate(cfg.window, dates.value)
          case Err(e) => Abort(e, fx)
          case Ok(date) =>
            if Truthy(date) then
              var claim := Claim(date.value, o.claim);
              match claim.result
              case Err(e) => Abort(e, fx + claim.effects)
              case Ok(v) => Finish(v.title, v.msg, fx + claim.effects)
            else match RandInt(cfg.retryLo, cfg.retryHi, o.retrySeed)
              case Err(e) => Abort(e, fx)
              case Ok(wait) =>
                var total := o.clock1 - s.t0;
                if total > cfg.workLimitHours * Hour then
                  // Work limit reached: rest, then start afresh.
                  Continue(s.(totalTime := total, firstLoop := true),
                           fx + [Notify("REST"), SignOut, Sleep(cfg.workCooldownHours * Hour)])
                else
                  Continue(s.(totalTime := total), fx + [Sleep(wait)])
  }

  /**
   * One pass as written. The fresh-start login runs before the `try`, so an
   * exception there leaves the loop without the teardown.
   */
  function Iterate(cfg: Config, s: RunState, o: Oracle): StepResult {
    if s.firstLoop then
      match o.resetLogin
      case Fail(e) => Crash(e, [Login])
      case Pass => Poll(cfg, Counted(s, o), o, [Login])
    else Poll(cfg, Counted(s, o), o, [])
  }

  /** The pass gets past the login guards and the dates request. */
  predicate ReachesDates(s: RunState, o: Oracle) {
    && !(s.firstLoop && o.resetLogin.Fail?)
    && EnsureLoggedIn(o.probe, o.relogin).result.Ok?
    && GetDate(o.dates).Ok?
  }

  /** The login effects that precede the dates request. */
  function Prelude(s: RunState, o: Oracle): seq<Effect> {
    (if s.firstLoop then [Login] else []) + EnsureLoggedIn(o.probe, o.relogin).effects
  }

  /** The pass gets a non-empty dates list and the selector answers without raising. */
  predicate Selects(cfg: Config, s: RunState, o: Oracle) {
    && ReachesDates(s, o)
    && GetDate(o.dates).value.Some? && |GetDate(o.dates).value.value| > 0
    && GetAvailableDate(cfg.window, GetDate(o.dates).value.value).Ok?
  }

  function Selected(cfg: Config, o: Oracle): Option<string>
    requires GetDate(o.dates).Ok? && GetDate(o.dates).value.Some?
    requires GetAvailableDate(cfg.window, GetDate(o.dates).value.value).Ok?
  {
    GetAvailableDate(cfg.window, GetDate(o.dates).value.value).value
  }

  /** The effects end with `tail`. */
  predicate EndsWith(fx: seq<Effect>, tail: seq<Effect>) {
    |tail| <= |fx| && fx[|fx| - |tail|..] == tail
  }

  predicate SleepsAllowed(cfg: Config, fx: seq<Effect>) {
    forall i :: 0 <= i < |fx| && fx[i].Sleep? ==> AllowedSleep(cfg, fx[i].seconds)
  }

  predicate NoSleeps(fx: seq<Effect>) {
    forall i :: 0 <= i < |fx| ==> !fx[i].Sleep?
  }

  /** Login effects only: what the guards before the dates request can do. */
  predicate OnlyLogins(fx: seq<Effect>) {
    forall i :: 0 <= i < |fx| ==> fx[i] == Login
  }

  lemma PreludeOnlyLogins(s: RunState, o: Oracle)
    ensures OnlyLogins(Prelude(s, o))
    ensures CountPosts(Prelude(s, o)) == 0
  {
  }

  /** The try body only appends effects, and only `total_time` and the fresh-start flag change. */
  lemma PollKeepsCounters(cfg: Config, s: RunState, o: Oracle, fx: seq<Effect>)
    ensures var r := Poll(cfg, s, o, fx); !r.Crash? && |fx| <= |r.effects| && r.effects[..|fx|] == fx
    ensures var r := Poll(cfg, s, o, fx);
      r.Continue? ==>
        && r.next.t0 == s.t0 && r.next.reqCount == s.reqCount
        && (r.next.totalTime == s.totalTime || r.next.totalTime == o.clock1 - s.t0)
  {
  }

  /** A fresh start resets `t0`, `total_time` and `Req_count`, so its first poll counts 1. */
  lemma FreshStartResets(cfg: Config, s: RunState, o: Oracle)
    requires s.firstLoop && o.resetLogin.Pass?
    ensures var r := Iterate(cfg, s, o); |r.effects| > 0 && r.effects[0] == Login
    ensures var r := Iterate(cfg, s, o);
      r.Continue? ==>
        && r.next.t0 == o.clock0 && r.next.reqCount == 1
        && (r.next.totalTime == 0 || r.next.totalTime == o.clock1 - o.clock0)
  {
    PollKeepsCounters(cfg, Counted(s, o), o, [Login]);
  }

  /** Away from a fresh start, each pass adds exactly one to `Req_count` and keeps `t0`. */
  lemma PassCountsOnce(cfg: Config, s: RunState, o: Oracle)
    requires !s.firstLoop
    ensures !Iterate(cfg, s, o).Crash?
    ensures var r := Iterate(cfg, s, o);
      r.Continue? ==> r.next.reqCount == s.reqCount + 1 && r.next.t0 == s.t0
  {
    PollKeepsCounters(cfg, Counted(s, o), o, []);
  }

  /**
   * An empty or missing dates list is read as a ban: notify, sign out, sleep
   * the ban cooldown and start afresh; no claim and no retry wait.
   */
  lemma BanCooldown(cfg: Config, s: RunState, o: Oracle)
    requires ReachesDates(s, o)
    requires GetDate(o.dates).value.None? || |GetDate(o.dates).value.value| == 0
    ensures Iterate(cfg, s, o) ==
      Continue(Counted(s, o).(firstLoop := true),
               Prelude(s, o) + [Notify("BAN"), SignOut, Sleep(cfg.banCooldownHours * Hour)])
    ensures CountPosts(Iterate(cfg, s, o).effects) == 0
  {
    var tail := [Notify("BAN"), SignOut, Sleep(cfg.banCooldownHours * Hour)];
    PreludeOnlyLogins(s, o);
    NoPostsCountZero(tail);
    CountPostsAppend(Prelude(s, o), tail);
  }

  /** A truthy match is claimed exactly once and the loop breaks, whatever the outcome. */
  lemma ClaimThenBreak(cfg: Config, s: RunState, o: Oracle)
    requires Selects(cfg, s, o) && Truthy(Selected(cfg, o))
    ensures Iterate(cfg, s, o).Stop?
    ensures var c := Claim(Selected(cfg, o).value, o.claim);
      Iterate(cfg, s, o).effects == Prelude(s, o) + c.effects + Teardown(Iterate(cfg, s, o).title)
    ensures var c := Claim(Selected(cfg, o).value, o.claim);
      c.result.Ok? ==> Iterate(cfg, s, o).title == c.result.value.title && Iterate(cfg, s, o).msg == c.result.value.msg
    ensures var c := Claim(Selected(cfg, o).value, o.claim);
      c.result.Err? ==> Iterate(cfg, s, o).title == "EXCEPTION"
    ensures CountPosts(Iterate(cfg, s, o).effects) == CountPosts(Claim(Selected(cfg, o).value, o.claim).effects) <= 1
  {
    var c := Claim(Selected(cfg, o).value, o.claim);
    var r := Iterate(cfg, s, o);
    PreludeOnlyLogins(s, o);
    NoPostsCountZero(Teardown(r.title));
    CountPostsAppend(Prelude(s, o), c.effects);
    CountPostsAppend(Prelude(s, o) + c.effects, Teardown(r.title));
  }

  /**
   * No match and more than `WORK_LIMIT_TIME` hours since `t0` (strictly):
   * notify, sign out, sleep the work cooldown and start afresh.
   */
  lemma WorkCooldown(cfg: Config, s: RunState, o: Oracle)
    requires Selects(cfg, s, o) && !Truthy(Selected(cfg, o)) && cfg.retryLo <= cfg.retryHi
    requires o.clock1 - Counted(s, o).t0 > cfg.workLimitHours * Hour
    ensures Iterate(cfg, s, o) ==
      Continue(Counted(s, o).(totalTime := o.clock1 - Counted(s, o).t0, firstLoop := true),
               Prelude(s, o) + [Notify("REST"), SignOut, Sleep(cfg.workCooldownHours * Hour)])
  {
  }

  /**
   * No match within the work limit: sleep a random wait inside the retry
   * bounds and keep polling with the same session and counters.
   */
  lemma RetryWait(cfg: Config, s: RunState, o: Oracle)
    requires Selects(cfg, s, o) && !Truthy(Selected(cfg, o)) && cfg.retryLo <= cfg.retryHi
    requires o.clock1 - Counted(s, o).t0 <= cfg.workLimitHours * Hour
    ensures Iterate(cfg, s, o).Continue?
    ensures Iterate(cfg, s, o).next == Counted(s, o).(totalTime := o.clock1 - Counted(s, o).t0)
    ensures exists wait ::
      && cfg.retryLo <= wait <= cfg.retryHi
      && Iterate(cfg, s, o).effects == Prelude(s, o) + [Sleep(wait)]
    ensures Iterate(cfg, s, o).effects == Prelude(s, o) + [Sleep(RandInt(cfg.retryLo, cfg.retryHi, o.retrySeed).value)]
  {
  }

  /** Every exception raised inside the `try` ends the loop with title "EXCEPTION". */
  lemma BodyExceptionsBreak(cfg: Config, s: RunState, o: Oracle)
    requires !(s.firstLoop && o.resetLogin.Fail?)
    ensures EnsureLoggedIn(o.probe, o.relogin).result.Err? ==>
      Iterate(cfg, s, o).Stop? && Iterate(cfg, s, o).title == "EXCEPTION"
    ensures EnsureLoggedIn(o.probe, o.relogin).result.Ok? && GetDate(o.dates).Err? ==>
      Iterate(cfg, s, o).Stop? && Iterate(cfg, s, o).title == "EXCEPTION"
    ensures
      && ReachesDates(s, o) && GetDate(o.dates).value.Some? && |GetDate(o.dates).value.value| > 0
      && GetAvailableDate(cfg.window, GetDate(o.dates).value.value).Err?
      ==> Iterate(cfg, s, o).Stop? && Iterate(cfg, s, o).title == "EXCEPTION"
    ensures Selects(cfg, s, o) && !Truthy(Selected(cfg, o)) && cfg.retryLo > cfg.retryHi ==>
      Iterate(cfg, s, o).Stop? && Iterate(cfg, s, o).title == "EXCEPTION"
  {
  }

  /** Logins followed by a quiet tail: no submission, no release, only allowed sleeps. */
  lemma QuietAfterLogins(cfg: Config, pre: seq<Effect>, tail: seq<Effect>)
    requires OnlyLogins(pre) && SleepsAllowed(cfg, tail) && CountPosts(tail) == 0 && Quit !in tail
    ensures CountPosts(pre + tail) == 0 && Quit !in pre + tail && SleepsAllowed(cfg, pre + tail)
  {
    NoPostsCountZero(pre);
    CountPostsAppend(pre, tail);
  }

  /** A pass that goes round again never claims, never quits and only sleeps as allowed. */
  lemma ContinueShape(cfg: Config, s: RunState, o: Oracle)
    requires Iterate(cfg, s, o).Continue?
    ensures var r := Iterate(cfg, s, o);
      CountPosts(r.effects) == 0 && Quit !in r.effects && SleepsAllowed(cfg, r.effects)
  {
    var pre := Prelude(s, o);
    PreludeOnlyLogins(s, o);
    assert ReachesDates(s, o);
    if GetDate(o.dates).value.None? || |GetDate(o.dates).value.value| == 0 {
      BanCooldown(cfg, s, o);
      var tail := [Notify("BAN"), SignOut, Sleep(cfg.banCooldownHours * Hour)];
      NoPostsCountZero(tail);
      QuietAfterLogins(cfg, pre, tail);
    } else {
      assert Selects(cfg, s, o) && !Truthy(Selected(cfg, o)) && cfg.retryLo <= cfg.retryHi;
      if o.clock1 - Counted(s, o).t0 > cfg.workLimitHours * Hour {
        WorkCooldown(cfg, s, o);
        var tail := [Notify("REST"), SignOut, Sleep(cfg.workCooldownHours * Hour)];
        NoPostsCountZero(tail);
        QuietAfterLogins(cfg, pre, tail);
      } else {
        RetryWait(cfg, s, o);
        var wait :| cfg.retryLo <= wait <= cfg.retryHi && Iterate(cfg, s, o).effects == pre + [Sleep(wait)];
        NoPostsCountZero([Sleep(wait)]);
        QuietAfterLogins(cfg, pre, [Sleep(wait)]);
      }
    }
  }

  /** A pass that breaks without reaching a claim broke on an exception before any effect but logins. */
  lemma EarlyStop(cfg: Config, s: RunState, o: Oracle)
    requires Iterate(cfg, s, o).Stop? && !(Selects(cfg, s, o) && Truthy(Selected(cfg, o)))
    ensures Iterate(cfg, s, o).title == "EXCEPTION"
    ensures Iterate(cfg, s, o).effects == Prelude(s, o) + Teardown("EXCEPTION")
  {
  }

  lemma NoSleepsConcat(a: seq<Effect>, b: seq<Effect>)
    requires NoSleeps(a) && NoSleeps(b)
    ensures NoSleeps(a + b)
  {
  }

  /** A pass that breaks after a claim ends in the claim's effects and the teardown. */
  lemma ClaimStopShape(cfg: Config, s: RunState, o: Oracle)
    requires Selects(cfg, s, o) && Truthy(Selected(cfg, o))
    ensures var r := Iterate(cfg, s, o);
      && r.Stop?
      && EndsWith(r.effects, Teardown(r.title))
      && CountPosts(r.effects) <= 1
      && NoSleeps(r.effects)
      && (r.title == "SUCCESS" || r.title == "FAIL" || r.title == "EXCEPTION")
  {
    ClaimThenBreak(cfg, s, o);
    var r := Iterate(cfg, s, o);
    var c := Claim(Selected(cfg, o).value, o.claim);
    var pre := Prelude(s, o) + c.effects;
    assert r.effects == pre + Teardown(r.title);
    PreludeOnlyLogins(s, o);
    NoSleepsConcat(Prelude(s, o), c.effects);
    NoSleepsConcat(pre, Teardown(r.title));
    assert r.effects[|r.effects| - 3..] == Teardown(r.title);
    if c.result.Ok? {
      var v := c.result.value;
      assert v.title == "SUCCESS" || v.title == "FAIL";
    }
  }

  /** A pass that breaks has claimed at most once, never slept, and ends in the teardown. */
  lemma StopShape(cfg: Config, s: RunState, o: Oracle)
    requires Iterate(cfg, s, o).Stop?
    ensures var r := Iterate(cfg, s, o);
      && EndsWith(r.effects, Teardown(r.title))
      && CountPosts(r.effects) <= 1
      && NoSleeps(r.effects)
      && (r.title == "SUCCESS" || r.title == "FAIL" || r.title == "EXCEPTION")
  {
    var r := Iterate(cfg, s, o);
    PreludeOnlyLogins(s, o);
    if Selects(cfg, s, o) && Truthy(Selected(cfg, o)) {
      ClaimStopShape(cfg, s, o);
    } else {
      EarlyStop(cfg, s, o);
      NoPostsCountZero(r.effects);
    }
  }

  /** Every pass, whatever the oracle: the three ways a pass can end. */
  lemma StepShape(cfg: Config, s: RunState, o: Oracle)
    ensures var r := Iterate(cfg, s, o);
      r.Continue? ==> CountPosts(r.effects) == 0 && Quit !in r.effects && SleepsAllowed(cfg, r.effects)
    ensures var r := Iterate(cfg, s, o);
      r.Stop? ==>
        && EndsWith(r.effects, Teardown(r.title))
        && CountPosts(r.effects) <= 1
        && NoSleeps(r.effects)
        && (r.title == "SUCCESS" || r.title == "FAIL" || r.title == "EXCEPTION")
    ensures var r := Iterate(cfg, s, o);
      r.Crash? <==> s.firstLoop && o.resetLogin.Fail?
  {
    var r := Iterate(cfg, s, o);
    if r.Continue? {
      ContinueShape(cfg, s, o);
    } else if r.Stop? {
      StopShape(cfg, s, o);
    }
  }

  /**
   * As written, a failed login at the fresh start is raised outside the
   * `try`: the loop is left with no final notification, no sign-out and the
   * browser still open.
   */
  lemma ResetLoginEscapesTeardown(cfg: Config, s: RunState, o: Oracle)
    requires s.firstLoop && o.resetLogin.Fail?
    ensures Iterate(cfg, s, o) == Crash(o.resetLogin.error, [Login])
    ensures Quit !in Iterate(cfg, s, o).effects && SignOut !in Iterate(cfg, s, o).effects
  {
  }

  /**
   * The pass with the fresh-start login inside the `try`: its failure ends
   * the loop like any other exception, through the shared teardown.
   */
  function GuardedIterate(cfg: Config, s: RunState, o: Oracle): (r: StepResult)
    ensures !r.Crash?
    ensures !Iterate(cfg, s, o).Crash? ==> r == Iterate(cfg, s, o)
    ensures s.firstLoop && o.resetLogin.Fail? ==> r.Stop? && r.title == "EXCEPTION"
    ensures r.Continue? ==> CountPosts(r.effects) == 0 && Quit !in r.effects && SleepsAllowed(cfg, r.effects)
    ensures r.Stop? ==>
      && EndsWith(r.effects, Teardown(r.title))
      && CountPosts(r.effects) <= 1
      && NoSleeps(r.effects)
  {
    StepShape(cfg, s, o);
    match Iterate(cfg, s, o)
    case Crash(e, fx) =>
      assert fx == [Login];
      assert Abort(e, fx).effects == [Login, Notify("EXCEPTION"), SignOut, Quit];
      NoPostsCountZero(Abort(e, fx).effects);
      Abort(e, fx)
    case Continue(n, fx) => Continue(n, fx)
    case Stop(t, m, fx) => Stop(t, m, fx)
  }
}
