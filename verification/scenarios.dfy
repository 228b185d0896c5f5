/** Three concrete passes of the loop, with the portal's replies written out. */
module Scenarios {
  import opened Results
  import opened LexOrder
  import opened Effects
  import opened Portal
  import opened SlotSelector
  import opened Session
  import opened Jitter
  import opened Reschedule
  import opened PollLoop

  const February := Window("2025-02-01", "2025-02-28")

  const Cfg := Config(February, 30, 90, 2, 1, 5)

  /** The loop after two passes of a session that started at clock 1000. */
  const Polling := RunState(1000, 0, 2, false)

  /** A portal with a live session that answers the given dates, times and claim reply. */
  function World(dates: Reply<seq<DateEntry>>, times: seq<string>, answer: string): Oracle {
    Oracle(0, Pass, Landmark, Pass, dates, 7, 1200,
           ClaimReply(Answered("{...}", Some(Some(times))), Pass, Response(answer)))
  }

  /** A March date lies outside a February window. */
  lemma ScenarioNoMatchSelects()
    ensures GetAvailableDate(February, [DateEntry(Some("2025-03-01"))]) == Ok(None)
  {
    FirstDifferenceDecides("2025-02-28", "2025-03-01", 6);
  }

  /** The no-match pass reaches the selector, which finds nothing. */
  lemma NoMatchSelectsNothing(o: Oracle)
    requires o == World(Answered("[...]", Some([DateEntry(Some("2025-03-01"))])), [], "")
    ensures Selects(Cfg, Polling, o) && Selected(Cfg, o) == None
    ensures Prelude(Polling, o) == []
  {
    ScenarioNoMatchSelects();
    assert EnsureLoggedIn(o.probe, o.relogin) == Traced([], Ok(()));
  }

  /** Only a March date is offered: no match, so the pass only waits inside the retry bounds. */
  lemma ScenarioNoMatchWaits(o: Oracle)
    requires o == World(Answered("[...]", Some([DateEntry(Some("2025-03-01"))])), [], "")
    ensures Iterate(Cfg, Polling, o) == Continue(RunState(1000, 200, 3, false), [Sleep(37)])
    ensures Cfg.retryLo <= 37 <= Cfg.retryHi
  {
    NoMatchSelectsNothing(o);
    assert RandInt(Cfg.retryLo, Cfg.retryHi, o.retrySeed) == Ok(37);
    assert Counted(Polling, o) == RunState(1000, 0, 3, false);
    RetryWait(Cfg, Polling, o);
  }

  lemma StartBeforeTenth()
    ensures LexLe("2025-02-01", "2025-02-10")
  {
    FirstDifferenceDecides("2025-02-01", "2025-02-10", 8);
  }

  lemma TenthBeforeEnd()
    ensures LexLe("2025-02-10", "2025-02-28")
  {
    FirstDifferenceDecides("2025-02-10", "2025-02-28", 8);
  }

  /** The February date lies in the window. */
  lemma ScenarioMatchSelects()
    ensures GetAvailableDate(February, [DateEntry(Some("2025-02-10"))]) == Ok(Some("2025-02-10"))
  {
    StartBeforeTenth();
    TenthBeforeEnd();
  }

  /** The reply carries the marker, so the claim is reported as a success with its date and time. */
  lemma ScenarioMatchVerdict()
    ensures Classify("2025-02-10", Some("10:30"), SuccessMarker + " ...") ==
      Verdict("SUCCESS", "Rescheduled Successfully! 2025-02-10 10:30")
  {
    assert OccursAt(SuccessMarker + " ...", SuccessMarker, 0);
    assert Find(SuccessMarker + " ...", SuccessMarker) != -1;
    assert ShowTime(Some("10:30")) == "10:30";
    assert "Rescheduled Successfully! " + "2025-02-10" + " " + "10:30" == "Rescheduled Successfully! 2025-02-10 10:30";
  }

  /** The claim replies for the February date: two times and a success page. */
  const TenthClaim := ClaimReply(Answered("{...}", Some(Some(["09:00", "10:30"]))), Pass,
                                 Response(SuccessMarker + " ..."))

  /** The effects of claiming the February date's later time. */
  const TenthTrace := [Notify("Bulundu!"), Notify("data!"), Post("2025-02-10", Some("10:30")), Notify("request!")]

  /** The claim picks the later of the two times and submits the form once. */
  lemma ScenarioMatchClaim()
    ensures Claim("2025-02-10", TenthClaim) ==
      Traced(TenthTrace,
             Ok(Verdict("SUCCESS", "Rescheduled Successfully! 2025-02-10 10:30")))
  {
    assert GetTime(TenthClaim.times) == Ok(Some("10:30"));
    ScenarioMatchVerdict();
  }

  /** A live session whose dates reply offers only the February date. */
  lemma TenthSelected(o: Oracle)
    requires o.probe == Landmark && GetDate(o.dates) == Ok(Some([DateEntry(Some("2025-02-10"))]))
    ensures Selects(Cfg, Polling, o) && Selected(Cfg, o) == Some("2025-02-10")
    ensures Prelude(Polling, o) == []
  {
    ScenarioMatchSelects();
    assert EnsureLoggedIn(o.probe, o.relogin) == Traced([], Ok(()));
  }

  /** Any live session offering only the February date and answering with `TenthClaim`. */
  lemma TenthClaimed(o: Oracle)
    requires o.probe == Landmark && GetDate(o.dates) == Ok(Some([DateEntry(Some("2025-02-10"))]))
    requires o.claim == TenthClaim
    ensures Iterate(Cfg, Polling, o) ==
      Stop("SUCCESS", "Rescheduled Successfully! 2025-02-10 10:30",
           TenthTrace + Teardown("SUCCESS"))
  {
    TenthSelected(o);
    ScenarioMatchClaim();
    var c := Claim(Selected(Cfg, o).value, o.claim);
    assert c.effects == TenthTrace;
    assert c.result == Ok(Verdict("SUCCESS", "Rescheduled Successfully! 2025-02-10 10:30"));
    ClaimThenBreak(Cfg, Polling, o);
    var r := Iterate(Cfg, Polling, o);
    assert r.title == "SUCCESS" && r.msg == "Rescheduled Successfully! 2025-02-10 10:30";
    assert [] + c.effects == TenthTrace;
  }

  /** A February date with two times: the later time is claimed once and the loop breaks. */
  lemma ScenarioMatchClaimsLatestTime(o: Oracle)
    requires o == World(Answered("[...]", Some([DateEntry(Some("2025-02-10"))])), ["09:00", "10:30"],
                        SuccessMarker + " ...")
    ensures Iterate(Cfg, Polling, o) ==
      Stop("SUCCESS", "Rescheduled Successfully! 2025-02-10 10:30",
           TenthTrace + Teardown("SUCCESS"))
  {
    assert GetDate(o.dates) == Ok(Some([DateEntry(Some("2025-02-10"))]));
    TenthClaimed(o);
  }

  /** An empty dates list: ban cooldown, then a fresh start with the counters reset. */
  lemma ScenarioEmptyListBans(o2: Oracle)
    requires o2.resetLogin.Pass?
    ensures var o := World(Answered("[]", Some([])), [], "");
      && Iterate(Cfg, Polling, o) == Continue(RunState(1000, 0, 3, true), [Notify("BAN"), SignOut, Sleep(5 * 3600)])
      && var n := Iterate(Cfg, RunState(1000, 0, 3, true), o2);
         n.Continue? ==> n.next.reqCount == 1 && n.next.t0 == o2.clock0
  {
  }
}
