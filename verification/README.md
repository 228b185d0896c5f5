# US visa appointment scheduler — a Dafny model of its polling-and-claim engine

The scheduler (`visa.py`) logs in to the visa appointment portal, polls the
list of open appointment dates, and claims the first date that falls inside a
configured window `[PRIOD_START, PRIOD_END]`. Between polls it sleeps a random
retry wait. When the portal returns an empty list it assumes a temporary ban
and sleeps a ban cooldown. After `WORK_LIMIT_TIME` hours of polling it rests
for a work cooldown. A claim is attempted once and the loop then ends,
whatever the outcome. Any exception inside the loop body also ends the loop.
A break out of the loop runs a shared teardown: a final notification, a
sign-out, and releasing the browser. An exception raised by the fresh-start
login, which sits before the `try`, skips that teardown (see "## Findings").

This project models that decision logic. Browser automation, HTTP, JSON
decoding, clocks, sleeps and the random source are not modelled as code.
Their results enter as oracle values: what the portal answered, whether a
login or a page read raised, what the clock read, which random wait came up.
Side effects are recorded as a trace of `Effect`s: `Login`, `Notify(title)`,
`SignOut`, `Sleep(seconds)`, `Post(date, time)` (the reschedule submission)
and `Quit`.

Modules, leaves first:

- `Results` (`results.dfy`): Python-style outcomes. `Option` models `None`. `Result` is a value or a raised exception.
- `LexOrder` (`lexorder.dfy`): Python's `<=` on strings, proved a total order.
- `IsoDate` (`isodate.dfy`): on `YYYY-MM-DD` strings, string order is calendar order.
- `Effects` (`effects.dfy`): the effect trace and the count of reschedule submissions in it.
- `Portal` (`portal.dfy`): `get_date` and `get_time` over an oracle reply.
- `SlotSelector` (`selector.dfy`): `get_available_date`.
- `Session` (`session.dfy`): `is_logged_in` and `ensure_logged_in`.
- `Jitter` (`jitter.dfy`): `random.randint` for the retry wait.
- `Reschedule` (`reschedule.dfy`): `str.find`, the success/fail classifier, and the one-shot claim.
- `PollLoop` (`pollloop.dfy`): one pass of the `while True` loop, and lemmas for each branch.
- `PollRun` (`run.dfy`): passes chained into a run, and properties of whole runs.
- `Scenarios` (`scenarios.dfy`): three concrete passes.

Some behaviours of the code are easy to miss, and the model keeps them as written:

- An empty `available_times` list is not turned into `None`. The `[-1]` index raises `IndexError`. A missing `available_times` key raises `TypeError`. Both propagate to the loop, which ends with `EXCEPTION`.
- A claim whose time lookup returned `None` is not abandoned. The form is still submitted. `requests` leaves a field whose value is `None` out of the form, so no time is sent; the model records this as `Post(date, None)`. The outcome is still classified from the reply text, so the messages show the time as "None".
- An undecodable dates reply gives `None`. The loop treats `None` like an empty list, so it takes the ban cooldown. It does not simply poll again.
- A dates entry without a `"date"` key makes `PRIOD_START <= None` raise `TypeError`. This ends the loop with `EXCEPTION` unless an earlier entry matched.
- The loop tests the selected date for truthiness. An empty date string therefore counts as no match.

## Model

| member | source | states |
|---|---|---|
| LexOrder.LexLeReflexive | visa.py:277 | Every date string lies within the window whose bounds are both that string. |
| LexOrder.LexLeAntisymmetric | visa.py:277 | Two strings that are each `<=` the other are equal. |
| LexOrder.LexLeTransitive | visa.py:277 | String `<=` is transitive, so window tests chain. |
| LexOrder.LexLeTotal | visa.py:277 | Any two strings are comparable, so the window test always has an answer. |
| LexOrder.PrefixIsLexLe | visa.py:277 | A string sorts no later than any extension of it, as in Python. |
| LexOrder.FirstDifferenceDecides | visa.py:277 | The first position where two strings differ decides `<=` strictly, one way and not the other. |
| IsoDate.IsoLexLeIsCalendarLe | visa.py:277 | For `YYYY-MM-DD` strings, Python's string `<=` holds exactly when the first date is no later than the second (year, then month, then day). |
| Portal.GetDate | visa.py:239-252 | An empty or undecodable body gives `None`. A bridge failure raises. Otherwise the result is the decoded array unchanged. |
| Portal.GetTime | visa.py:255-271 | The result is a time exactly when the decoded list is non-empty, and then it is the list's last element. An empty or undecodable body gives `None`. An empty list raises instead of giving `None`. |
| Portal.GetTimeIsLatest | visa.py:263 | When the portal lists a day's times in ascending order, the chosen time is one of them and no offered time is later. |
| SlotSelector.GetAvailableDate | visa.py:274-282 | The result is the date of the first entry, in input order, that lies in `[start, end]`. Every earlier entry has a date outside the window. The sentinel `0` is returned exactly when every entry is outside the window, in particular for an empty list. An entry without a date raises only when no earlier entry matched. |
| SlotSelector.SelectAppend | visa.py:276-281 | The scan reads the list front to back without reordering it. On `a + b` the answer is the answer on `a`, unless nothing in `a` matched; then it is the answer on `b`. |
| SlotSelector.IsoWindowIsCalendarWindow | visa.py:277 | With `YYYY-MM-DD` bounds and dates, the lexical window test is the calendar window test. |
| SlotSelector.FirstMatchIsEarliest | visa.py:276-281 | When the portal's dates ascend, the selected date is no later than any other in-window date. |
| Session.IsLoggedIn | visa.py:290-296 | The guard reads "logged in" exactly when the landmark is found. A probe that raises reads as "not logged in"; the exception never propagates. |
| Session.EnsureLoggedIn | visa.py:299-305 | A login runs exactly when `is_logged_in` is false, and never when it is true. A failed login is the only way the guard raises. |
| Session.EnsureLoggedInIdempotent | visa.py:299-305 | A successful login returns only once the landmark is present (its last wait, lines 162-166), so a second guard call right after the first does nothing. It is a no-op exactly when the first call returned normally; after a failed login it logs in again. |
| Jitter.RandInt | visa.py:355 | The wait lies in `[RETRY_TIME_L_BOUND, RETRY_TIME_U_BOUND]`. The call raises exactly when the range is empty. |
| Jitter.RandIntCovers | visa.py:355 | Every wait inside the bounds can be drawn. |
| Reschedule.Find | visa.py:230 | `str.find` returns the lowest index at which the marker occurs, or -1 exactly when it occurs nowhere. |
| Reschedule.Classify | visa.py:229-236 | The title is "SUCCESS" exactly when the reply contains "Successfully Scheduled", and "FAIL" exactly when it does not. The message ends with the date and the time. |
| Reschedule.Claim | visa.py:170-236 | A claim submits the form at most once, always for the given date. It returns a verdict exactly when the time lookup, page reads and submission all complete. The verdict is then the classification of the reply, and the effects are the notifications around the single submission. |
| PollLoop.FreshStartResets | visa.py:317-323 | A fresh start logs in first and resets `t0` to the clock. It sets `total_time` to 0 and `Req_count` to 1 for its first poll. |
| PollLoop.PollKeepsCounters | visa.py:324-379 | The `try` body never lets an exception out of the loop, and it only appends to the effects. It keeps `t0` and `Req_count`. It leaves `total_time` as it was or sets it to the clock minus `t0`. |
| PollLoop.PassCountsOnce | visa.py:317-323 | Away from a fresh start, a pass adds exactly one to `Req_count`. It keeps `t0` and never escapes the loop. |
| PollLoop.BanCooldown | visa.py:333-341 | A `None` or empty dates result signs out and sleeps `BAN_COOLDOWN_TIME` hours. It sets `first_loop`, notifies "BAN", and makes no claim and no retry wait. |
| PollLoop.ClaimThenBreak | visa.py:350-354 | A truthy match leads to one claim, and the loop breaks whatever the outcome. The final title is the claim's title, or "EXCEPTION" if the claim raised. The pass submits at most one reschedule. |
| PollLoop.WorkCooldown | visa.py:355-369 | With no match and `total_time` strictly above `WORK_LIMIT_TIME` hours, the pass notifies "REST" and signs out. It sleeps `WORK_COOLDOWN_TIME` hours and sets `first_loop`. |
| PollLoop.RetryWait | visa.py:355-374 | With no match within the work limit, the pass only sleeps a wait inside the retry bounds, and that wait is the `randint` draw. It keeps polling with updated `total_time`. |
| PollLoop.BodyExceptionsBreak | visa.py:324-379 | An exception ends the loop with title "EXCEPTION". This holds for a failed re-login, a failed dates request, a date-less entry and an empty retry range. |
| PollLoop.EarlyStop | visa.py:375-386 | A pass that breaks before any claim broke on an exception. Its only effects are the logins and then the teardown. |
| PollLoop.ClaimStopShape | visa.py:350-386 | A pass that claims ends in the teardown. It submits at most once and never sleeps. Its title is "SUCCESS", "FAIL" or "EXCEPTION". |
| PollLoop.ContinueShape | visa.py:333-374 | A pass that goes round again never claims and never releases the browser. It only sleeps a ban cooldown, a work cooldown or an in-bounds retry wait. |
| PollLoop.StopShape | visa.py:350-386 | Every pass that breaks ends in the teardown for its title. It submits at most once and never sleeps. Its title is one of the three final titles. |
| PollLoop.StepShape | visa.py:315-386 | The three ways a pass ends, for every input. A pass escapes the loop exactly when the fresh-start login fails. |
| PollLoop.ResetLoginEscapesTeardown | visa.py:317-322 | As written, a failed fresh-start login leaves the loop without a final notification, sign-out or browser release. |
| PollLoop.GuardedIterate | visa.py:315-386 | The corrected pass never escapes the loop. Every pass that breaks ends in the teardown. It agrees with the code whenever the code does not escape. |
| PollRun.Step | visa.py:315-386 | Every pass, as written or corrected: going round again means no submission, no release and only allowed sleeps; breaking means at most one submission and the teardown last. A pass escapes the loop exactly when it is the code as written and the fresh-start login fails, and then its only effect is that login. |
| PollRun.RunClaimsAtMostOnce | visa.py:315-386 | A whole run, as written or corrected, submits at most one reschedule. A run that submitted one has broken out of the loop. |
| PollRun.RunSleepsFollowBackoff | visa.py:333-374 | Every sleep in a run, as written or corrected, is a ban cooldown, a work cooldown, or a retry wait within the bounds. |
| PollRun.RunEndsWithTeardown | visa.py:315-386 | A run that breaks ends with the final notification, sign-out and browser release. A run still polling has not released the browser. Only the code as written can crash out of the loop, and then the failed login is the last effect, with no release. |
| PollRun.RunCountsRequests | visa.py:317-323 | In a run, as written or corrected, `Req_count` is at least 1 while polling and grows by at most one per pass. |
| PollRun.CooldownRestartsCounters | visa.py:315-369 | After a ban or work cooldown, as written or corrected, the next pass logs in first. Its poll runs with `Req_count` back at 1 and `t0` at the new clock. |
| Scenarios.ScenarioNoMatchWaits | visa.py:350-374 | A March date is not in a February window. The pass only sleeps a wait inside the retry bounds. |
| Scenarios.ScenarioMatchSelects | visa.py:274-282 | The date 2025-02-10 is selected from a one-entry list for a February window. |
| Scenarios.ScenarioMatchVerdict | visa.py:229-236 | A reply carrying the marker is classified "SUCCESS", with the date and time in the message. |
| Scenarios.ScenarioMatchClaim | visa.py:170-236 | Of the times 09:00 and 10:30, the claim submits 10:30, once. |
| Scenarios.ScenarioMatchClaimsLatestTime | visa.py:350-386 | The matching pass claims 10:30 with one submission. It then breaks with title "SUCCESS" and its message, and ends with the teardown. |
| Scenarios.ScenarioEmptyListBans | visa.py:333-341 | An empty list takes the ban cooldown. The next pass starts afresh with `Req_count` at 1. |

## Left out

- Selenium driving is not modelled. This covers `auto_action`, the form filling in `start_process`, the 60-second waits, `find_element` and cookie reads. Each enters as an oracle `Outcome` (completed or raised) or a `Probe`.
- The JavaScript bridge and `requests.post` are not modelled, nor are their headers, cookies and form fields. They are network I/O. Their results enter as `Reply` and `PostReply` oracles.
- JSON decoding is not modelled. The decoded value is an oracle, and `None` stands for `JSONDecodeError`. Only two shapes are modelled: a dates array of objects, and a times object. A dates reply of any other JSON shape, such as a top-level object, is not modelled.
- Notifications are recorded by title only. Message bodies, the three channels, and a channel raising an exception are foreign services and are not modelled.
- File logging (`info_logger`) is assumed not to raise. In the code, a failure to open the log file would end a pass with `EXCEPTION` (for example at line 331), would lose a match before it is returned (line 280), and at line 382 would escape before the final notification, sign-out and release.
- `print` output, the listing of available dates (lines 343-349), configuration loading and the `Embassies` table are not modelled. None of them affects a decision.
- Sign-out navigation, `driver.stop_client()` and `driver.quit()` are assumed not to raise.
- Wall-clock time is not modelled; readings enter as arbitrary whole seconds, with no monotonicity assumed. `time.sleep` is recorded as a `Sleep` effect and never performed. The sleep is not interruptible.
- Configuration times are whole seconds and whole hours. The source reads them as floats.
- Jitter.RandInt: models the range of the wait and that every value in it is reachable, not the uniform distribution. It assumes the float bounds hold whole numbers that the running Python accepts. Non-integral float bounds, and float arguments on Python versions that reject them, make `randint` raise. That path is not modelled. The error text for an empty range is approximate: the exact wording and the bounds it quotes differ between Python versions.

## Findings

| source | as written | input that shows it | evidently intended | confidence | as-written member | corrected member |
|---|---|---|---|---|---|---|
| visa.py:317-322 | The fresh-start `start_process()` runs outside the `try` block, so its exception leaves the `while` loop and the script. The teardown at lines 381-386 is skipped: no final notification, no sign-out, browser not released. | A pass with `first_loop` set whose login wait times out, for example after a ban cooldown. | End through the `EXCEPTION` break and the shared teardown, as a failed re-login inside `ensure_logged_in` does. | medium, not executed | PollLoop.ResetLoginEscapesTeardown | PollLoop.GuardedIterate |

`PollRun.Run` chains passes of either variant. With `AsWritten` a run can end `Crashed`, and `PollRun.RunEndsWithTeardown` shows that such a run ends without the teardown. With `Corrected` it cannot.
