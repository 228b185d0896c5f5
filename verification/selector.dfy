/**
 * The slot selector (visa.py `get_available_date`): the first date, in the
 * portal's order, that lies in the configured window `[start, end]` under
 * Python's string comparison.
 */
module SlotSelector {
  import opened Results
  import opened LexOrder
  import opened IsoDate
  import opened Portal

  /** `PRIOD_START` and `PRIOD_END` from the configuration, both inclusive. */
  datatype Window = Window(start: string, end: string)

  /** The chained comparison `start <= d <= end`. */
  predicate InWindow(w: Window, d: string) {
    LexLe(w.start, d) && LexLe(d, w.end)
  }

  /** An entry the scan passes over: it has a date and the date is outside the window. */
  predicate Rejected(w: Window, e: DateEntry) {
    e.date.Some? && !InWindow(w, e.date.value)
  }

  /** Entry `i` is the first one the scan accepts. */
  ghost predicate FirstMatch(w: Window, dates: seq<DateEntry>, i: int) {
    && 0 <= i < |dates|
    && dates[i].date.Some? && InWindow(w, dates[i].date.value)
    && forall j :: 0 <= j < i ==> Rejected(w, dates[j])
  }

  /** Python's message when `str <= None` is evaluated. */
  const NoneCompareError := "'<=' not supported between instances of 'str' and 'NoneType'"

  /**
   * `Ok(Some(d))` is the returned date, `Ok(None)` the sentinel `0`, and
   * `Err` the `TypeError` raised on reaching an entry without a date.
   */
  function GetAvailableDate(w: Window, dates: seq<DateEntry>): (r: Result<Option<string>>)
    ensures r == Ok(None) <==> forall j :: 0 <= j < |dates| ==> Rejected(w, dates[j])
    ensures r.Ok? && r.value.Some? <==> exists i :: FirstMatch(w, dates, i)
    ensures r.Ok? && r.value.Some? ==>
      exists i :: FirstMatch(w, dates, i) && dates[i].date == r.value
    ensures r.Err? ==>
      exists i :: 0 <= i < |dates| && dates[i].date.None?
        && forall j :: 0 <= j < i ==> Rejected(w, dates[j])
    decreases |dates|
  {
    if |dates| == 0 then Ok(None)
    else match dates[0].date
      case None => Err(NoneCompareError)
      case Some(d) =>
        if InWindow(w, d) then
          assert FirstMatch(w, dates, 0);
          Ok(Some(d))
        else
          var rest := GetAvailableDate(w, dates[1..]);
          assert Rejected(w, dates[0]);
          assert forall i :: FirstMatch(w, dates[1..], i) ==> FirstMatch(w, dates, i + 1);
          assert forall i :: FirstMatch(w, dates, i) ==> i > 0 && FirstMatch(w, dates[1..], i - 1);
          assert rest.Err? ==>
            exists i :: 0 <= i < |dates| && dates[i].date.None?
              && forall j :: 0 <= j < i ==> Rejected(w, dates[j]);
          rest
  }

  /**
   * The scan reads the list front to back and never reorders it: the answer
   * on `a + b` is the answer on `a`, unless `a` holds nothing in the window,
   * in which case it is the answer on `b`.
   */
  lemma {:induction false} SelectAppend(w: Window, a: seq<DateEntry>, b: seq<DateEntry>)
    ensures GetAvailableDate(w, a + b) ==
      if GetAvailableDate(w, a) == Ok(None) then GetAvailableDate(w, b) else GetAvailableDate(w, a)
    decreases |a|
  {
    if |a| == 0 {
      assert a + b == b;
    } else {
      assert (a + b)[0] == a[0] && (a + b)[1..] == a[1..] + b;
      SelectAppend(w, a[1..], b);
    }
  }

  /** With `YYYY-MM-DD` bounds and dates, the window test is a calendar test. */
  lemma IsoWindowIsCalendarWindow(w: Window, d: string)
    requires IsIsoDate(w.start) && IsIsoDate(w.end) && IsIsoDate(d)
    ensures InWindow(w, d) <==> CalendarLe(w.start, d) && CalendarLe(d, w.end)
  {
    IsoLexLeIsCalendarLe(w.start, d);
    IsoLexLeIsCalendarLe(d, w.end);
  }

  /**
   * When the portal's dates ascend, the first match is the earliest date
   * in the window.
   */
  lemma FirstMatchIsEarliest(w: Window, dates: seq<DateEntry>, d: string)
    requires forall i :: 0 <= i < |dates| ==> dates[i].date.Some?
    requires forall i, j :: 0 <= i < j < |dates| ==> LexLe(dates[i].date.value, dates[j].date.value)
    requires GetAvailableDate(w, dates) == Ok(Some(d))
    ensures forall i :: 0 <= i < |dates| && InWindow(w, dates[i].date.value) ==> LexLe(d, dates[i].date.value)
  {
    var k :| FirstMatch(w, dates, k) && dates[k].date == Some(d);
    forall i | 0 <= i < |dates| && InWindow(w, dates[i].date.value)
      ensures LexLe(d, dates[i].date.value)
    {
      if i == k {
        LexLeReflexive(d);
      } else {
        assert !Rejected(w, dates[i]);
        assert k < i;
      }
    }
  }
}
