/**
 * The two read endpoints of the booking portal (visa.py `get_date` and
 * `get_time`). The browser bridge that runs the request is an oracle: it
 * either raises or answers with a body, and `decoded` is what `json.loads`
 * makes of a non-empty body (`None` when it raises `JSONDecodeError`).
 */
module Portal {
  import opened Results
  import opened LexOrder

  datatype Reply<+T> = ScriptRaised(error: string) | Answered(content: string, decoded: Option<T>)

  /** One element of the dates array; `date` is `None` when the object has no "date" key. */
  datatype DateEntry = DateEntry(date: Option<string>)

  /** The times endpoint decodes to an object whose "available_times" may be absent. */
  type TimesBody = Option<seq<string>>

  /**
   * `get_date`: the parsed array, or `None` for an empty or undecodable
   * body. Any other failure of the bridge propagates as an exception.
   */
  function GetDate(reply: Reply<seq<DateEntry>>): (r: Result<Option<seq<DateEntry>>>)
    ensures r.Err? <==> reply.ScriptRaised?
    ensures r == Ok(None) <==> reply.Answered? && (|reply.content| == 0 || reply.decoded.None?)
    ensures r.Ok? && r.value.Some? ==> reply.Answered? && reply.decoded == r.value
  {
    match reply
    case ScriptRaised(e) => Err(e)
    case Answered(content, decoded) =>
      if |content| == 0 then Ok(None) else Ok(decoded)
  }

  /**
   * `get_time`: the last of the available times. An empty or undecodable
   * body gives `None`; an absent list or an empty list raises, because
   * indexing with `[-1]` is not guarded.
   */
  function GetTime(reply: Reply<TimesBody>): (r: Result<Option<string>>)
    ensures r == Ok(None) <==> reply.Answered? && (|reply.content| == 0 || reply.decoded.None?)
    ensures r.Ok? && r.value.Some? <==>
      reply.Answered? && |reply.content| > 0 && reply.decoded.Some?
      && reply.decoded.value.Some? && |reply.decoded.value.value| > 0
    ensures r.Ok? && r.value.Some? ==>
      var times := reply.decoded.value.value;
      r.value.value == times[|times| - 1]
    ensures reply.Answered? && |reply.content| > 0 && reply.decoded == Some(Some([])) ==> r.Err?
  {
    match reply
    case ScriptRaised(e) => Err(e)
    case Answered(content, decoded) =>
      if |content| == 0 then Ok(None)
      else match decoded
        case None => Ok(None)
        case Some(body) =>
          match body
          case None => Err("'NoneType' object is not subscriptable")
          case Some(times) =>
            if |times| == 0 then Err("list index out of range") else Ok(Some(times[|times| - 1]))
  }

  predicate SortedTimes(times: seq<string>) {
    forall i, j :: 0 <= i < j < |times| ==> LexLe(times[i], times[j])
  }

  /**
   * When the portal lists times in ascending order, the chosen time is the
   * latest one offered that day.
   */
  lemma GetTimeIsLatest(content: string, times: seq<string>)
    requires |content| > 0 && |times| > 0 && SortedTimes(times)
    ensures GetTime(Answered(content, Some(Some(times)))).Ok?
    ensures var t := GetTime(Answered(content, Some(Some(times)))).value;
      t.Some? && t.value in times && forall u :: u in times ==> LexLe(u, t.value)
  {
    var last := times[|times| - 1];
    forall u | u in times
      ensures LexLe(u, last)
    {
      var i :| 0 <= i < |times| && times[i] == u;
      if i < |times| - 1 {
        assert LexLe(times[i], times[|times| - 1]);
      } else {
        LexLeReflexive(u);
      }
    }
  }
}
