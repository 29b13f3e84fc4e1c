/** Values shared by the scrapers and the managers: failure-compatible
    wrappers, the FETCH event a scraper emits, JavaScript truthiness of an
    optional string, and instants on a one-day grid. */
module Common {

  datatype Option<+T> = None | Some(value: T) {
    function GetOr(default: T): T {
      match this
      case Some(v) => v
      case None => default
    }
  }

  /** A promise's settlement, or a synchronous call that may throw: the
      error is the message of the thrown Error. */
  datatype Result<+R> = Success(value: R) | Failure(error: string)

  /** Settlement of a call whose value is not used. */
  datatype Outcome = Pass | Fail(error: string)

  /** One `emit(ScrapperEvent.FETCH, htmlId, { body })`; `body` is None where
      the emitted body is `undefined`. */
  datatype FetchEvent = FetchEvent(htmlId: string, body: Option<string>)

  /** `if (body)` on a string-or-undefined: only a non-empty string is truthy. */
  predicate Truthy(body: Option<string>) {
    body.Some? && body.value != ""
  }

  /** The payloads of a list of FETCH events, in order. */
  function Bodies(events: seq<FetchEvent>): (r: seq<Option<string>>)
    ensures |r| == |events|
    ensures forall i :: 0 <= i < |events| ==> r[i] == events[i].body
  {
    if events == [] then [] else [events[0].body] + Bodies(events[1..])
  }

  lemma {:induction false} BodiesAppend(a: seq<FetchEvent>, b: seq<FetchEvent>)
    ensures Bodies(a + b) == Bodies(a) + Bodies(b)
  {
    if a != [] {
      assert (a + b)[1..] == a[1..] + b;
      BodiesAppend(a[1..], b);
      AppendAssoc([a[0].body], Bodies(a[1..]), Bodies(b));
    }
  }

  /** Regrouping a concatenation of three logs. */
  lemma AppendAssoc<T>(a: seq<T>, b: seq<T>, c: seq<T>)
    ensures a + b + c == a + (b + c)
  {
  }

  // ---------------------------------------------------------------------------
  // Time. An instant is a number of milliseconds; luxon's `plus({ day: 1 })`
  // is a fixed step of one day and `toISODate()` is the day number.
  // ---------------------------------------------------------------------------

  const DayMs: int := 86_400_000

  /** `toISODate()` of an instant: two instants print the same ISO date
      exactly when they fall on the same day. */
  function IsoDay(t: int): int {
    t / DayMs
  }

  /** A date read from a message: absent, unparsable (luxon's invalid
      DateTime, which compares false with everything), or an instant. */
  datatype Stamp = Absent | Invalid | At(t: int)

  /** `a < b` between luxon DateTimes: false as soon as one is invalid. */
  predicate Before(a: Option<int>, b: Option<int>) {
    a.Some? && b.Some? && a.value < b.value
  }

  /** The dates `while (activeDate < until) { ...; activeDate = activeDate.plus({ day: 1 }) }`
      visits from `start`. */
  function DayList(start: Option<int>, until: Option<int>): seq<int>
    decreases if Before(start, until) then until.value - start.value else 0
  {
    if Before(start, until) then [start.value] + DayList(Some(start.value + DayMs), until) else []
  }

  /** The visited dates start at `start`, are exactly one day apart, and all lie
      before `until`; an invalid bound or a start not before `until` visits none. */
  lemma {:induction false} DayListShape(start: Option<int>, until: Option<int>)
    ensures var days := DayList(start, until);
      && (days == [] <==> !Before(start, until))
      && (days != [] ==> days[0] == start.value)
      && (forall i :: 0 <= i < |days| ==> days[i] < until.value)
      && (forall i :: 0 <= i < |days| ==> days[i] == start.value + i * DayMs)
    decreases if Before(start, until) then until.value - start.value else 0
  {
    if Before(start, until) {
      var next := Some(start.value + DayMs);
      DayListShape(next, until);
      var days := DayList(start, until);
      assert days == [start.value] + DayList(next, until);
      forall i | 0 <= i < |days|
        ensures days[i] < until.value && days[i] == start.value + i * DayMs
      {
        if i > 0 {
          assert days[i] == DayList(next, until)[i - 1];
        }
      }
    }
  }

  /** The number of visited dates is the number of one-day steps from `start`
      that stay below `until`: the ceiling of (until - start) / one day. */
  lemma {:induction false} DayListCount(start: int, until: int)
    requires start < until
    ensures |DayList(Some(start), Some(until))| == (until - start + DayMs - 1) / DayMs
    decreases until - start
  {
    if start + DayMs < until {
      DayListCount(start + DayMs, until);
      assert (until - start + DayMs - 1) / DayMs == (until - (start + DayMs) + DayMs - 1) / DayMs + 1;
    } else {
      assert DayList(Some(start + DayMs), Some(until)) == [];
    }
  }

  /** Consecutive visited dates are strictly increasing, one day apart. */
  lemma DayListStep(start: Option<int>, until: Option<int>, i: int)
    requires 0 <= i < |DayList(start, until)| - 1
    ensures DayList(start, until)[i + 1] == DayList(start, until)[i] + DayMs
    ensures DayList(start, until)[i] < DayList(start, until)[i + 1]
  {
    DayListShape(start, until);
  }

  /** An assignment from midnight of one day to midnight two days later
      runs exactly twice: on the first day and on the second. */
  lemma TwoDayAssignment(midnight: int)
    ensures DayList(Some(midnight), Some(midnight + 2 * DayMs)) == [midnight, midnight + DayMs]
  {
    var u := Some(midnight + 2 * DayMs);
    assert DayList(Some(midnight + 2 * DayMs), u) == [];
    assert DayList(Some(midnight + DayMs), u) == [midnight + DayMs];
  }
}
