/**
 * The whole `while True` loop: passes are taken one after another, each with
 * its own oracle, until one breaks or an exception escapes. A run is taken
 * either with the pass as written (`Iterate`, whose fresh-start login sits
 * outside the `try`) or with the corrected pass (`GuardedIterate`); the
 * properties below hold for both unless they say otherwise.
 */
module PollRun {
  import opened Effects
  import opened PollLoop

  /** Which pass the loop runs: the code as written, or with the fresh-start login inside the `try`. */
  datatype Variant = AsWritten | Corrected

  /** One pass of the chosen variant, with what every pass of it guarantees. */
  function Step(v: Variant, cfg: Config, s: RunState, o: Oracle): (r: StepResult)
    ensures r.Continue? ==> r == Iterate(cfg, s, o)
    ensures r.Continue? ==> CountPosts(r.effects) == 0 && Quit !in r.effects && SleepsAllowed(cfg, r.effects)
    ensures r.Stop? ==>
      && EndsWith(r.effects, Teardown(r.title))
      && CountPosts(r.effects) <= 1
      && NoSleeps(r.effects)
    ensures r.Crash? <==> v.AsWritten? && s.firstLoop && o.resetLogin.Fail?
    ensures r.Crash? ==> r.effects == [Login]
  {
    StepShape(cfg, s, o);
    if v.Corrected? then GuardedIterate(cfg, s, o)
    else if s.firstLoop && o.resetLogin.Fail? then
      ResetLoginEscapesTeardown(cfg, s, o);
      Iterate(cfg, s, o)
    else Iterate(cfg, s, o)
  }

  /** Still polling; broke out with a final title and message; or an exception escaped the loop. */
  datatype RunEnd = Polling(state: RunState) | Ended(title: string, msg: string) | Crashed(error: string)

  /** All effects of the passes taken, and where the loop stands after them. */
  datatype RunTrace = RunTrace(effects: seq<Effect>, end: RunEnd)

  /** Runs one pass per oracle until a pass breaks, an exception escapes, or the oracles run out. */
  function Run(v: Variant, cfg: Config, s: RunState, os: seq<Oracle>): RunTrace
    decreases |os|
  {
    if |os| == 0 then RunTrace([], Polling(s))
    else
      match Step(v, cfg, s, os[0])
      case Continue(next, fx) =>
        var rest := Run(v, cfg, next, os[1..]);
        RunTrace(fx + rest.effects, rest.end)
      case Stop(title, msg, fx) => RunTrace(fx, Ended(title, msg))
      case Crash(e, fx) => RunTrace(fx, Crashed(e))
  }

  /** A run submits at most one reschedule, and a run that submitted one has broken out of the loop. */
  lemma {:induction false} RunClaimsAtMostOnce(v: Variant, cfg: Config, s: RunState, os: seq<Oracle>)
    ensures CountPosts(Run(v, cfg, s, os).effects) <= 1
    ensures CountPosts(Run(v, cfg, s, os).effects) == 1 ==> Run(v, cfg, s, os).end.Ended?
    decreases |os|
  {
    if |os| > 0 {
      var r := Step(v, cfg, s, os[0]);
      if r.Continue? {
        RunClaimsAtMostOnce(v, cfg, r.next, os[1..]);
        CountPostsAppend(r.effects, Run(v, cfg, r.next, os[1..]).effects);
      } else if r.Crash? {
        NoPostsCountZero(r.effects);
      }
    }
  }

  lemma SleepsAllowedConcat(cfg: Config, a: seq<Effect>, b: seq<Effect>)
    requires SleepsAllowed(cfg, a) && SleepsAllowed(cfg, b)
    ensures SleepsAllowed(cfg, a + b)
  {
  }

  /**
   * The backoff discipline: every sleep of a run is a ban cooldown, a work
   * cooldown, or a retry wait inside `[RETRY_TIME_L_BOUND, RETRY_TIME_U_BOUND]`.
   */
  lemma {:induction false} RunSleepsFollowBackoff(v: Variant, cfg: Config, s: RunState, os: seq<Oracle>)
    ensures SleepsAllowed(cfg, Run(v, cfg, s, os).effects)
    decreases |os|
  {
    if |os| > 0 {
      var r := Step(v, cfg, s, os[0]);
      if r.Continue? {
        RunSleepsFollowBackoff(v, cfg, r.next, os[1..]);
        SleepsAllowedConcat(cfg, r.effects, Run(v, cfg, r.next, os[1..]).effects);
      }
    }
  }

  /**
   * How a run leaves the loop. A break runs the shared teardown last; while
   * the loop is still polling the browser has not been released. Only the
   * code as written can crash out, and then the failed login is the last
   * effect: no final notification, sign-out or release follows it.
   */
  lemma {:induction false} RunEndsWithTeardown(v: Variant, cfg: Config, s: RunState, os: seq<Oracle>)
    ensures var t := Run(v, cfg, s, os);
      t.end.Ended? ==> EndsWith(t.effects, Teardown(t.end.title))
    ensures var t := Run(v, cfg, s, os);
      t.end.Polling? ==> Quit !in t.effects
    ensures var t := Run(v, cfg, s, os);
      t.end.Crashed? ==> v.AsWritten? && Quit !in t.effects && |t.effects| > 0 && t.effects[|t.effects| - 1] == Login
    decreases |os|
  {
    if |os| > 0 {
      var r := Step(v, cfg, s, os[0]);
      if r.Continue? {
        RunEndsWithTeardown(v, cfg, r.next, os[1..]);
        var rest := Run(v, cfg, r.next, os[1..]).effects;
        if Run(v, cfg, r.next, os[1..]).end.Ended? {
          assert (r.effects + rest)[|r.effects + rest| - 3..] == rest[|rest| - 3..];
        }
        if Run(v, cfg, r.next, os[1..]).end.Crashed? {
          assert (r.effects + rest)[|r.effects + rest| - 1] == rest[|rest| - 1];
        }
      }
    }
  }

  /**
   * `Req_count` counts passes: while polling it is at least 1 and grows by
   * at most one per pass.
   */
  lemma {:induction false} RunCountsRequests(v: Variant, cfg: Config, s: RunState, os: seq<Oracle>)
    requires s.firstLoop || s.reqCount >= 1
    ensures var t := Run(v, cfg, s, os);
      t.end.Polling? ==> t.end.state.firstLoop || t.end.state.reqCount >= 1
    ensures var t := Run(v, cfg, s, os);
      t.end.Polling? && !t.end.state.firstLoop ==>
        t.end.state.reqCount <= (if s.firstLoop then 0 else s.reqCount) + |os|
    decreases |os|
  {
    if |os| > 0 {
      var r := Step(v, cfg, s, os[0]);
      if r.Continue? {
        if s.firstLoop {
          FreshStartResets(cfg, s, os[0]);
        } else {
          PassCountsOnce(cfg, s, os[0]);
        }
        RunCountsRequests(v, cfg, r.next, os[1..]);
      }
    }
  }

  /**
   * After a ban or work cooldown the next pass starts afresh: it logs in
   * first and polls with `Req_count` back at 1 and `t0` at its own clock.
   */
  lemma CooldownRestartsCounters(v: Variant, cfg: Config, s: RunState, o1: Oracle, o2: Oracle)
    requires Step(v, cfg, s, o1).Continue? && Step(v, cfg, s, o1).next.firstLoop
    requires o2.resetLogin.Pass?
    ensures var n := Step(v, cfg, s, o1).next;
      var r := Step(v, cfg, n, o2);
      |r.effects| > 0 && r.effects[0] == Login
      && (r.Continue? ==> r.next.reqCount == 1 && r.next.t0 == o2.clock0)
  {
    FreshStartResets(cfg, Step(v, cfg, s, o1).next, o2);
  }
}
