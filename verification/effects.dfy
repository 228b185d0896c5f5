/**
 * The observable side effects of the scheduler, recorded instead of
 * performed: browser logins, notifications, sign-outs, sleeps, the one
 * reschedule request, and releasing the browser.
 */
module Effects {
  import opened Results

  datatype Effect =
    | Login                                   // one run of the sign-in form (`start_process`)
    | Notify(title: string)                   // `send_notification(title, …)`
    | SignOut                                 // navigating to the sign-out link
    | Sleep(seconds: nat)                     // `time.sleep(seconds)`
    | Post(date: string, time: Option<string>) // the reschedule form submission
    | Quit                                    // `driver.stop_client()` and `driver.quit()`

  /** What a call did on the way to its result or exception. */
  datatype Traced<+T> = Traced(effects: seq<Effect>, result: Result<T>)

  /** Number of reschedule submissions in a trace. */
  function CountPosts(fx: seq<Effect>): nat
    decreases |fx|
  {
    if |fx| == 0 then 0 else (if fx[0].Post? then 1 else 0) + CountPosts(fx[1..])
  }

  lemma {:induction false} CountPostsAppend(a: seq<Effect>, b: seq<Effect>)
    ensures CountPosts(a + b) == CountPosts(a) + CountPosts(b)
    decreases |a|
  {
    if |a| > 0 {
      assert (a + b)[0] == a[0] && (a + b)[1..] == a[1..] + b;
      CountPostsAppend(a[1..], b);
    } else {
      assert a + b == b;
    }
  }

  lemma {:induction false} NoPostsCountZero(fx: seq<Effect>)
    requires forall i :: 0 <= i < |fx| ==> !fx[i].Post?
    ensures CountPosts(fx) == 0
    decreases |fx|
  {
    if |fx| > 0 {
      NoPostsCountZero(fx[1..]);
    }
  }
}
