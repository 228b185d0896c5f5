/**
 * The one-shot claim (visa.py `reschedule`): pick a time for the date,
 * open the confirmation page, submit the form once, and classify the reply
 * by looking for the portal's success marker in its text.
 */
module Reschedule {
  import opened Results
  import opened Effects
  import opened Portal

  /** The only signal the portal gives that a claim went through. */
  const SuccessMarker := "Successfully Scheduled"

  predicate OccursAt(text: string, pat: string, i: int) {
    0 <= i && i + |pat| <= |text| && text[i..i + |pat|] == pat
  }

  ghost predicate Occurs(text: string, pat: string) {
    exists i :: OccursAt(text, pat, i)
  }

  /** Python's `str.find`: the lowest index of `pat` in `text`, or -1. */
  function Find(text: string, pat: string): (r: int)
    ensures r == -1 <==> !Occurs(text, pat)
    ensures r != -1 ==> OccursAt(text, pat, r) && forall j :: 0 <= j < r ==> !OccursAt(text, pat, j)
  {
    FindFrom(text, pat, 0)
  }

  function FindFrom(text: string, pat: string, k: nat): (r: int)
    requires k <= |text|
    requires forall j :: 0 <= j < k ==> !OccursAt(text, pat, j)
    ensures r == -1 <==> !Occurs(text, pat)
    ensures r != -1 ==> k <= r && OccursAt(text, pat, r) && forall j :: 0 <= j < r ==> !OccursAt(text, pat, j)
    decreases |text| - k
  {
    if k + |pat| > |text| then
      assert forall j :: k <= j ==> !OccursAt(text, pat, j);
      -1
    else if text[k..k + |pat|] == pat then
      assert OccursAt(text, pat, k);
      k
    else FindFrom(text, pat, k + 1)
  }

  /** How an f-string renders the chosen time: `None` prints as "None". */
  function ShowTime(time: Option<string>): string {
    match time
    case None => "None"
    case Some(t) => t
  }

  /** The `[title, msg]` pair `reschedule` returns. */
  datatype Verdict = Verdict(title: string, msg: string)

  function Classify(date: string, time: Option<string>, text: string): (v: Verdict)
    ensures v.title == "SUCCESS" <==> Occurs(text, SuccessMarker)
    ensures v.title == "FAIL" <==> !Occurs(text, SuccessMarker)
    ensures var tail := date + " " + ShowTime(time);
      |tail| <= |v.msg| && v.msg[|v.msg| - |tail|..] == tail
  {
    if Find(text, SuccessMarker) != -1 then
      Verdict("SUCCESS", "Rescheduled Successfully! " + date + " " + ShowTime(time))
    else
      Verdict("FAIL", "Reschedule Failed!!! " + date + " " + ShowTime(time))
  }

  /** Outcome of `requests.post` for the reschedule form. */
  datatype PostReply = PostRaised(error: string) | Response(text: string)

  /**
   * What the portal does during one claim: the times reply, whether the
   * confirmation page and its hidden form fields could be read, and the
   * reply to the submission.
   */
  datatype ClaimReply = ClaimReply(times: Reply<TimesBody>, page: Outcome, post: PostReply)

  /**
   * One claim of `date`. A missing time does not stop the claim: the form is
   * submitted with time `None`. Exceptions from any step propagate.
   */
  function Claim(date: string, c: ClaimReply): (r: Traced<Verdict>)
    ensures CountPosts(r.effects) <= 1
    ensures forall i :: 0 <= i < |r.effects| ==> !r.effects[i].Sleep? && r.effects[i] != Quit
    ensures forall i :: 0 <= i < |r.effects| && r.effects[i].Post? ==> r.effects[i].date == date
    ensures r.result.Ok? <==> GetTime(c.times).Ok? && c.page.Pass? && c.post.Response?
    ensures r.result.Ok? ==>
      var time := GetTime(c.times).value;
      && r.effects == [Notify("Bulundu!"), Notify("data!"), Post(date, time), Notify("request!")]
      && r.result.value == Classify(date, time, c.post.text)
    ensures CountPosts(r.effects) == 1 <==> GetTime(c.times).Ok? && c.page.Pass?
  {
    match GetTime(c.times)
    case Err(e) => Traced([], Err(e))
    case Ok(time) =>
      match c.page
      case Fail(e) => Traced([Notify("Bulundu!")], Err(e))
      case Pass =>
        var sent := [Notify("Bulundu!"), Notify("data!"), Post(date, time)];
        assert CountPosts(sent[2..]) == 1 && CountPosts(sent[1..]) == 1 && CountPosts(sent) == 1;
        var tail := [Notify("request!")];
        assert CountPosts(tail) == 0;
        CountPostsAppend(sent, tail);
        match c.post
        case PostRaised(e) => Traced(sent, Err(e))
        case Response(text) => Traced(sent + tail, Ok(Classify(date, time, text)))
  }
}
