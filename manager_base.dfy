/** The manager that drives a scraper from the task subscription of the
    backend (src/manager/base.ts): it walks the days of a task, one `getData`
    per day, and forwards every FETCH payload to the backend as a
    `processFragment` mutation. The walk itself is specified here once, as
    `Walk`, and reused by the socket-driven manager of src/manager.ts. */
module Manager {
  import opened Common
  import Scrapper

  /** The message `manageScrap` throws when no scraper is set (the spelling is
      the program's). */
  const NotInitialised: string := "Scrapper hasn't been initalized!"

  /** A task of the subscription: `since` may be empty (start now), `until`
      is always read as a date. */
  datatype ScrapTask = ScrapTask(since: Stamp, until: Stamp)

  /** `task.since ? DateTime.fromISO(task.since) : DateTime.now()`: an absent
      or empty `since` starts now; an unparsable one is an invalid date. */
  function StartOf(since: Stamp, now: int): Option<int> {
    match since
    case Absent => Some(now)
    case Invalid => None
    case At(t) => Some(t)
  }

  /** `DateTime.fromISO(until)`: anything but a parsable date is invalid. */
  function UntilOf(until: Stamp): Option<int> {
    if until.At? then Some(until.t) else None
  }

  /** The patch src/manager/base.ts applies before each day: `setDate` only. */
  function DatePatch(day: int): Scrapper.OptionsPatch {
    Scrapper.SetDate(day)
  }

  // ---------------------------------------------------------------------------
  // The day walk: one getData per day, stopping at the first rejection
  // ---------------------------------------------------------------------------

  /** What a walk over some days did: the options each `getData` ran with,
      the steps and FETCH events of those runs, and how the walk settled. */
  datatype Walked = Walked(used: seq<Scrapper.ScrapperOptions>, steps: seq<Scrapper.Step>,
                           events: seq<FetchEvent>, outcome: Outcome)

  /** `while (activeDate < until) { overwriteConfig(patch(activeDate)); await getData(); activeDate = activeDate.plus({ day: 1 }) }`
      from `active`, starting from options `o`; `world(day)` is what the
      strategy meets on that day. A rejected `getData` rejects the walk. */
  function Walk(isPrivate: bool, o: Scrapper.ScrapperOptions, active: Option<int>, until: Option<int>,
                patch: int -> Scrapper.OptionsPatch, world: int -> Scrapper.Capabilities): Walked
    decreases if Before(active, until) then until.value - active.value else 0
  {
    if !Before(active, until) then Walked([], [], [], Pass)
    else
      var o' := Scrapper.Patched(o, patch(active.value));
      var run := Scrapper.GetDataRun(isPrivate, o', world(active.value));
      if run.result.Failure? then Walked([o'], run.steps, run.events, Fail(run.result.error))
      else
        var rest := Walk(isPrivate, o', Some(active.value + DayMs), until, patch, world);
        Walked([o'] + rest.used, run.steps + rest.steps, run.events + rest.events, rest.outcome)
  }

  /** One `getData` per visited day, in order, each with that day's date set
      and the credentials untouched; the walk resolves only when every day
      ran and succeeded, and a rejection is the error of the last day that ran,
      every earlier day having succeeded. */
  lemma WalkShape(isPrivate: bool, o: Scrapper.ScrapperOptions, active: Option<int>, until: Option<int>,
                  patch: int -> Scrapper.OptionsPatch, world: int -> Scrapper.Capabilities)
    ensures var w, days := Walk(isPrivate, o, active, until, patch, world), DayList(active, until);
      && |w.used| <= |days|
      && (forall k :: 0 <= k < |w.used| ==> w.used[k].setDate == Some(patch(days[k]).date))
      && (forall k :: 0 <= k < |w.used| ==> w.used[k].credentials == o.credentials)
      && (w.outcome.Pass? ==> |w.used| == |days|)
      && (|w.used| < |days| ==> w.outcome.Fail?)
      && (w.outcome.Fail? ==>
            && w.used != []
            && Scrapper.GetDataRun(isPrivate, w.used[|w.used| - 1], world(days[|w.used| - 1])).result
               == Failure(w.outcome.error))
      // every run before the last, and every run of a resolved walk, succeeded
      && (forall k :: 0 <= k < |w.used| && (k < |w.used| - 1 || w.outcome.Pass?) ==>
            Scrapper.GetDataRun(isPrivate, w.used[k], world(days[k])).result.Success?)
  {
    WalkStops(isPrivate, o, active, until, patch, world);
    WalkPatches(isPrivate, o, active, until, patch, world);
  }

  /** The walk stops exactly at the first failing day, with that day's error:
      every day before it succeeded, and a resolved walk succeeded on every day. */
  lemma {:induction false} WalkStops(isPrivate: bool, o: Scrapper.ScrapperOptions, active: Option<int>, until: Option<int>,
                                     patch: int -> Scrapper.OptionsPatch, world: int -> Scrapper.Capabilities)
    ensures var w, days := Walk(isPrivate, o, active, until, patch, world), DayList(active, until);
      && |w.used| <= |days|
      && (w.outcome.Pass? ==> |w.used| == |days|)
      && (|w.used| < |days| ==> w.outcome.Fail?)
      && (w.outcome.Fail? ==>
            && w.used != []
            && Scrapper.GetDataRun(isPrivate, w.used[|w.used| - 1], world(days[|w.used| - 1])).result
               == Failure(w.outcome.error))
      // every run before the last, and every run of a resolved walk, succeeded
      && (forall k :: 0 <= k < |w.used| && (k < |w.used| - 1 || w.outcome.Pass?) ==>
            Scrapper.GetDataRun(isPrivate, w.used[k], world(days[k])).result.Success?)
    decreases if Before(active, until) then until.value - active.value else 0
  {
    if Before(active, until) {
      var o' := Scrapper.Patched(o, patch(active.value));
      var run := Scrapper.GetDataRun(isPrivate, o', world(active.value));
      var next := Some(active.value + DayMs);
      var days := DayList(active, until);
      assert days == [active.value] + DayList(next, until);
      if run.result.Success? {
        WalkStops(isPrivate, o', next, until, patch, world);
        var w, rest := Walk(isPrivate, o, active, until, patch, world), Walk(isPrivate, o', next, until, patch, world);
        assert w.used == [o'] + rest.used;
        if w.outcome.Fail? {
          assert w.used[|w.used| - 1] == rest.used[|rest.used| - 1];
          assert days[|w.used| - 1] == DayList(next, until)[|rest.used| - 1];
        }
        forall k | 1 <= k < |w.used| && (k < |w.used| - 1 || w.outcome.Pass?)
          ensures Scrapper.GetDataRun(isPrivate, w.used[k], world(days[k])).result.Success?
        {
          assert w.used[k] == rest.used[k - 1] && days[k] == DayList(next, until)[k - 1];
        }
      }
    }
  }

  /** Every run of the walk used the configuration carrying its day's date and
      the starting credentials. */
  lemma {:induction false} WalkPatches(isPrivate: bool, o: Scrapper.ScrapperOptions, active: Option<int>, until: Option<int>,
                                       patch: int -> Scrapper.OptionsPatch, world: int -> Scrapper.Capabilities)
    ensures var w, days := Walk(isPrivate, o, active, until, patch, world), DayList(active, until);
      && |w.used| <= |days|
      && (forall k :: 0 <= k < |w.used| ==> w.used[k].setDate == Some(patch(days[k]).date))
      && (forall k :: 0 <= k < |w.used| ==> w.used[k].credentials == o.credentials)
    decreases if Before(active, until) then until.value - active.value else 0
  {
    if Before(active, until) {
      var o' := Scrapper.Patched(o, patch(active.value));
      var run := Scrapper.GetDataRun(isPrivate, o', world(active.value));
      var next := Some(active.value + DayMs);
      var days := DayList(active, until);
      assert days == [active.value] + DayList(next, until);
      if run.result.Success? {
        Scrapper.PatchedFields(o, patch(active.value));
        WalkPatches(isPrivate, o', next, until, patch, world);
        var w, rest := Walk(isPrivate, o, active, until, patch, world), Walk(isPrivate, o', next, until, patch, world);
        assert w.used == [o'] + rest.used;
        forall k | 1 <= k < |w.used|
          ensures w.used[k] == rest.used[k - 1] && days[k] == DayList(next, until)[k - 1]
        {
        }
      }
    }
  }

  /** With the `setDate`-only patch, each day runs with the starting options
      and that day's date: nothing else in the configuration moves. */
  lemma {:induction false} WalkSetsOnlyDate(isPrivate: bool, o: Scrapper.ScrapperOptions, active: Option<int>,
                                            until: Option<int>, world: int -> Scrapper.Capabilities)
    ensures var w, days := Walk(isPrivate, o, active, until, DatePatch, world), DayList(active, until);
      && |w.used| <= |days|
      && forall k :: 0 <= k < |w.used| ==> w.used[k] == o.(setDate := Some(days[k]))
    decreases if Before(active, until) then until.value - active.value else 0
  {
    if Before(active, until) {
      var o' := Scrapper.Patched(o, DatePatch(active.value));
      assert o' == o.(setDate := Some(active.value));
      var run := Scrapper.GetDataRun(isPrivate, o', world(active.value));
      var next := Some(active.value + DayMs);
      var days := DayList(active, until);
      assert days == [active.value] + DayList(next, until);
      if run.result.Success? {
        WalkSetsOnlyDate(isPrivate, o', next, until, world);
        var w, rest := Walk(isPrivate, o, active, until, DatePatch, world), Walk(isPrivate, o', next, until, DatePatch, world);
        assert w.used == [o'] + rest.used;
        forall k | 1 <= k < |w.used|
          ensures w.used[k] == o.(setDate := Some(days[k]))
        {
          assert w.used[k] == rest.used[k - 1] && days[k] == DayList(next, until)[k - 1];
        }
      }
    }
  }

  /** Every day of a completed walk ran: on success there are as many runs as
      one-day steps from the start that stay below `until`. */
  lemma WalkCount(isPrivate: bool, o: Scrapper.ScrapperOptions, start: int, until: int,
                  patch: int -> Scrapper.OptionsPatch, world: int -> Scrapper.Capabilities)
    requires start < until
    requires Walk(isPrivate, o, Some(start), Some(until), patch, world).outcome.Pass?
    ensures |Walk(isPrivate, o, Some(start), Some(until), patch, world).used| == (until - start + DayMs - 1) / DayMs
  {
    DayListCount(start, until);
    WalkStops(isPrivate, o, Some(start), Some(until), patch, world);
  }

  /** The walk of `manageScrap` from `active`: the `setDate` patch. */
  function DateWalk(isPrivate: bool, o: Scrapper.ScrapperOptions, active: Option<int>, until: Option<int>,
                    world: int -> Scrapper.Capabilities): Walked {
    Walk(isPrivate, o, active, until, DatePatch, world)
  }

  /** A walk that has already run some days (`used`, `steps`, `events`) and
      has `w` still to go. */
  function Glued(used: seq<Scrapper.ScrapperOptions>, steps: seq<Scrapper.Step>, events: seq<FetchEvent>,
                 w: Walked): Walked {
    Walked(used + w.used, steps + w.steps, events + w.events, w.outcome)
  }

  /** One turn of the loop: from a start before `until`, the walk is the
      start day's run followed, when that run resolves, by the walk from the
      next day. */
  lemma WalkStep(isPrivate: bool, o: Scrapper.ScrapperOptions, start: Option<int>, until: Option<int>,
                 patch: int -> Scrapper.OptionsPatch, world: int -> Scrapper.Capabilities,
                 used: seq<Scrapper.ScrapperOptions>, steps: seq<Scrapper.Step>, events: seq<FetchEvent>)
    requires Before(start, until)
    ensures var o' := Scrapper.Patched(o, patch(start.value));
      var run := Scrapper.GetDataRun(isPrivate, o', world(start.value));
      var before := Glued(used, steps, events, Walk(isPrivate, o, start, until, patch, world));
      if run.result.Failure? then
        before == Walked(used + [o'], steps + run.steps, events + run.events, Fail(run.result.error))
      else
        before == Glued(used + [o'], steps + run.steps, events + run.events,
                        Walk(isPrivate, o', Some(start.value + DayMs), until, patch, world))
  {
    var o' := Scrapper.Patched(o, patch(start.value));
    var run := Scrapper.GetDataRun(isPrivate, o', world(start.value));
    if run.result.Success? {
      var rest := Walk(isPrivate, o', Some(start.value + DayMs), until, patch, world);
      AppendAssoc(used, [o'], rest.used);
      AppendAssoc(steps, run.steps, rest.steps);
      AppendAssoc(events, run.events, rest.events);
    }
  }

  // ---------------------------------------------------------------------------
  // Forwarding FETCH payloads
  // ---------------------------------------------------------------------------

  /** How the backend answers a `processFragment` mutation. */
  datatype MutationReply = Accepted | ApolloFailure(message: string) | OtherFailure(message: string)

  /** The HTML bodies sent as `processFragment` for a list of FETCH events:
      the truthy ones, in order. */
  function Forwarded(events: seq<FetchEvent>): seq<string> {
    if events == [] then []
    else (if Truthy(events[0].body) then [events[0].body.value] else []) + Forwarded(events[1..])
  }

  lemma {:induction false} ForwardedAppend(a: seq<FetchEvent>, b: seq<FetchEvent>)
    ensures Forwarded(a + b) == Forwarded(a) + Forwarded(b)
  {
    if a == [] {
      assert a + b == b;
    } else {
      var head := if Truthy(a[0].body) then [a[0].body.value] else [];
      assert (a + b)[0] == a[0] && (a + b)[1..] == a[1..] + b;
      calc {
        Forwarded(a + b);
        head + Forwarded(a[1..] + b);
        { ForwardedAppend(a[1..], b); }
        head + (Forwarded(a[1..]) + Forwarded(b));
        { AppendAssoc(head, Forwarded(a[1..]), Forwarded(b)); }
        Forwarded(a) + Forwarded(b);
      }
    }
  }

  /** A body is forwarded exactly when some event carries it and it is not
      empty. */
  lemma {:induction false} ForwardedExactly(events: seq<FetchEvent>, html: string)
    ensures html in Forwarded(events) <==> html != "" && Some(html) in Bodies(events)
  {
    if events != [] {
      ForwardedExactly(events[1..], html);
      assert Bodies(events) == [events[0].body] + Bodies(events[1..]);
    }
  }

  /** What forwarding the events of one more day appends to the mutations
      sent and to the errors logged. */
  lemma RelayStep(mutations0: seq<string>, errors0: seq<string>, events: seq<FetchEvent>, more: seq<FetchEvent>,
                  mutate: string -> MutationReply)
    ensures mutations0 + Forwarded(events) + Forwarded(more) == mutations0 + Forwarded(events + more)
    ensures errors0 + Unswallowed(Forwarded(events), mutate) + Unswallowed(Forwarded(more), mutate)
      == errors0 + Unswallowed(Forwarded(events + more), mutate)
  {
    ForwardedAppend(events, more);
    UnswallowedAppend(Forwarded(events), Forwarded(more), mutate);
    AppendAssoc(mutations0, Forwarded(events), Forwarded(more));
    AppendAssoc(errors0, Unswallowed(Forwarded(events), mutate), Unswallowed(Forwarded(more), mutate));
  }

  /** The errors the forwarding logs: failures of the mutation other than an
      `ApolloError`, in order. */
  function Unswallowed(bodies: seq<string>, mutate: string -> MutationReply): seq<string> {
    if bodies == [] then []
    else
      var head := if mutate(bodies[0]).OtherFailure? then [mutate(bodies[0]).message] else [];
      head + Unswallowed(bodies[1..], mutate)
  }

  lemma {:induction false} UnswallowedAppend(a: seq<string>, b: seq<string>, mutate: string -> MutationReply)
    ensures Unswallowed(a + b, mutate) == Unswallowed(a, mutate) + Unswallowed(b, mutate)
  {
    if a == [] {
      assert a + b == b;
    } else {
      var head := if mutate(a[0]).OtherFailure? then [mutate(a[0]).message] else [];
      assert (a + b)[0] == a[0] && (a + b)[1..] == a[1..] + b;
      calc {
        Unswallowed(a + b, mutate);
        head + Unswallowed(a[1..] + b, mutate);
        { UnswallowedAppend(a[1..], b, mutate); }
        head + (Unswallowed(a[1..], mutate) + Unswallowed(b, mutate));
        { AppendAssoc(head, Unswallowed(a[1..], mutate), Unswallowed(b, mutate)); }
        Unswallowed(a, mutate) + Unswallowed(b, mutate);
      }
    }
  }

  /** Nothing is logged exactly when no forwarded body meets a failure other
      than an `ApolloError`: accepted and Apollo-rejected mutations are silent. */
  lemma {:induction false} UnswallowedSilent(bodies: seq<string>, mutate: string -> MutationReply)
    ensures Unswallowed(bodies, mutate) == [] <==> forall b :: b in bodies ==> !mutate(b).OtherFailure?
  {
    if bodies != [] {
      UnswallowedSilent(bodies[1..], mutate);
      assert forall b :: b in bodies <==> b == bodies[0] || b in bodies[1..];
    }
  }

  /** The manager: the scraper it drives (unset until a subclass sets it),
      whether `start` has installed the FETCH listener and the subscription,
      the mutations sent and the errors logged. */
  class ManagerBase {
    const scrapper: Scrapper.ScrapperBase?
    var transportInstalled: bool
    var subscribed: bool
    var mutations: seq<string>
    var errors: seq<string>

    ghost predicate Valid()
      reads this, scrapper
    {
      scrapper != null ==> scrapper.Valid()
    }

    constructor (scrapper: Scrapper.ScrapperBase?)
      requires scrapper != null ==> scrapper.Valid()
      ensures Valid()
      ensures this.scrapper == scrapper
      ensures !transportInstalled && !subscribed && mutations == [] && errors == []
    {
      this.scrapper := scrapper;
      transportInstalled := false;
      subscribed := false;
      mutations := [];
      errors := [];
    }

    /** `transporter`: an error in the context is logged; a truthy body is sent
        as `processFragment`, whose failure is logged unless it is an
        `ApolloError`; nothing is rethrown. */
    method Transporter(htmlId: string, body: Option<string>, error: Option<string>,
                       mutate: string -> MutationReply)
      modifies this`mutations, this`errors
      ensures mutations == old(mutations) + (if Truthy(body) then [body.value] else [])
      ensures errors == old(errors) + (if error.Some? then [error.value] else [])
        + (if Truthy(body) then Unswallowed([body.value], mutate) else [])
    {
      if error.Some? {
        errors := errors + [error.value];
      }
      if !Truthy(body) {
        return;
      }
      mutations := mutations + [body.value];
      var reply := mutate(body.value);
      if reply.OtherFailure? {
        errors := errors + [reply.message];
      }
    }

    /** The FETCH listener `initTransportEvent` installs, applied to the events
        of one `getData`, in the order they were emitted. */
    method Relay(events: seq<FetchEvent>, mutate: string -> MutationReply)
      modifies this`mutations, this`errors
      ensures mutations == old(mutations) + Forwarded(events)
      ensures errors == old(errors) + Unswallowed(Forwarded(events), mutate)
    {
      var i := 0;
      while i < |events|
        invariant 0 <= i <= |events|
        invariant mutations == old(mutations) + Forwarded(events[..i])
        invariant errors == old(errors) + Unswallowed(Forwarded(events[..i]), mutate)
      {
        Transporter(events[i].htmlId, events[i].body, None, mutate);
        assert events[..i + 1] == events[..i] + [events[i]];
        ForwardedAppend(events[..i], [events[i]]);
        UnswallowedAppend(Forwarded(events[..i]), Forwarded([events[i]]), mutate);
        i := i + 1;
      }
      assert events[..|events|] == events;
    }

    /** The FETCH events of one `getData` reach the listener when `start`
        has installed it: the mutations and errors logged after the events
        `done` of earlier days then cover these events too. */
    method Deliver(events: seq<FetchEvent>, mutate: string -> MutationReply,
                   ghost mutations0: seq<string>, ghost errors0: seq<string>, ghost done: seq<FetchEvent>)
      requires mutations == mutations0 + (if transportInstalled then Forwarded(done) else [])
      requires errors == errors0 + (if transportInstalled then Unswallowed(Forwarded(done), mutate) else [])
      modifies this`mutations, this`errors
      ensures mutations == mutations0 + (if transportInstalled then Forwarded(done + events) else [])
      ensures errors == errors0 + (if transportInstalled then Unswallowed(Forwarded(done + events), mutate) else [])
    {
      if transportInstalled {
        Relay(events, mutate);
        RelayStep(mutations0, errors0, done, events, mutate);
      }
    }

    /** What `manageScrap(task)` does to the manager and its scraper, ending
        with outcome `r`. */
    twostate predicate ManagedScrap(task: ScrapTask, now: int, world: int -> Scrapper.Capabilities,
                                    mutate: string -> MutationReply, r: Outcome)
      reads this, scrapper
    {
      && transportInstalled == old(transportInstalled) && subscribed == old(subscribed)
      && (scrapper == null ==>
            r == Fail(NotInitialised) && mutations == old(mutations) && errors == old(errors))
      && (scrapper != null ==>
            var w := Walk(scrapper.isPrivateEndpoint, old(scrapper.options),
                          StartOf(task.since, now), UntilOf(task.until), DatePatch, world);
            && r == w.outcome
            && scrapper.runs == old(scrapper.runs) + w.used
            && scrapper.trace == old(scrapper.trace) + w.steps
            && scrapper.fetched == old(scrapper.fetched) + w.events
            && scrapper.options == (if w.used == [] then old(scrapper.options) else w.used[|w.used| - 1])
            && mutations == old(mutations) + (if transportInstalled then Forwarded(w.events) else [])
            && errors == old(errors)
               + (if transportInstalled then Unswallowed(Forwarded(w.events), mutate) else []))
    }

    /** `manageScrap(task)`: throws without a scraper; otherwise walks the days
        from `since` (or now) while before `until`, one `getData` per day with
        `setDate` overwritten, and rejects with the first rejection. The FETCH
        events of each day are forwarded when the listener is installed. */
    method ManageScrap(task: ScrapTask, now: int, world: int -> Scrapper.Capabilities,
                       mutate: string -> MutationReply) returns (r: Outcome)
      requires Valid()
      modifies this`mutations, this`errors, scrapper
      ensures Valid()
      ensures ManagedScrap(task, now, world, mutate, r)
    {
      if scrapper == null {
        return Fail(NotInitialised);
      }
      r := WalkDays(StartOf(task.since, now), UntilOf(task.until), world, mutate);
    }

    /** The day loop of `manageScrap`, from `start` while before `until`. */
    method WalkDays(start: Option<int>, until: Option<int>, world: int -> Scrapper.Capabilities,
                    mutate: string -> MutationReply) returns (r: Outcome)
      requires Valid() && scrapper != null
      modifies this`mutations, this`errors, scrapper
      ensures Valid()
      ensures var w := DateWalk(scrapper.isPrivateEndpoint, old(scrapper.options), start, until, world);
        && r == w.outcome
        && scrapper.options == (if w.used == [] then old(scrapper.options) else w.used[|w.used| - 1])
        && Tracks(old(scrapper.runs), old(scrapper.trace), old(scrapper.fetched), old(mutations), old(errors),
                  mutate, w.used, w.steps, w.events)
    {
      var active := start;
      ghost var o0, runs0, trace0, fetched0 := scrapper.options, scrapper.runs, scrapper.trace, scrapper.fetched;
      ghost var mutations0, errors0 := mutations, errors;
      ghost var used: seq<Scrapper.ScrapperOptions> := [];
      ghost var steps: seq<Scrapper.Step> := [];
      ghost var events: seq<FetchEvent> := [];
      ghost var whole := DateWalk(scrapper.isPrivateEndpoint, o0, start, until, world);
      assert [] + whole.used == whole.used && [] + whole.steps == whole.steps && [] + whole.events == whole.events;
      r := Pass;
      while Before(active, until)
        invariant Midway(o0, whole, runs0, trace0, fetched0, mutations0, errors0, mutate,
                         used, steps, events, active, until, world)
        invariant r == Pass
        decreases if Before(active, until) then until.value - active.value else 0
      {
        var result;
        result, used, steps, events := RunDay(active.value, until, world, mutate, o0, whole, runs0, trace0,
                                              fetched0, mutations0, errors0, used, steps, events);
        if result.Failure? {
          r := Fail(result.error);
          break;
        }
        active := Some(active.value + DayMs);
      }
      if r.Pass? {
        assert used + [] == used && steps + [] == steps && events + [] == events;
      }
      assert whole == Walked(used, steps, events, r);
    }

    /** The scraper's logs and the manager's mutations and errors are the
        starting ones followed by what the days run so far (`used`, `steps`,
        `events`) produced. */
    ghost predicate Tracks(runs0: seq<Scrapper.ScrapperOptions>, trace0: seq<Scrapper.Step>,
                           fetched0: seq<FetchEvent>, mutations0: seq<string>, errors0: seq<string>,
                           mutate: string -> MutationReply,
                           used: seq<Scrapper.ScrapperOptions>, steps: seq<Scrapper.Step>, events: seq<FetchEvent>)
      reads this, scrapper
    {
      && scrapper != null
      && scrapper.runs == runs0 + used
      && scrapper.trace == trace0 + steps
      && scrapper.fetched == fetched0 + events
      && mutations == mutations0 + (if transportInstalled then Forwarded(events) else [])
      && errors == errors0 + (if transportInstalled then Unswallowed(Forwarded(events), mutate) else [])
    }

    /** Midway through the day loop, at day `active`: the days run so far
        followed by the walk still ahead make up the `whole` walk, the logs
        track the days run, and the scraper holds the last day's options. */
    ghost predicate Midway(o0: Scrapper.ScrapperOptions, whole: Walked,
                           runs0: seq<Scrapper.ScrapperOptions>, trace0: seq<Scrapper.Step>,
                           fetched0: seq<FetchEvent>, mutations0: seq<string>, errors0: seq<string>,
                           mutate: string -> MutationReply,
                           used: seq<Scrapper.ScrapperOptions>, steps: seq<Scrapper.Step>, events: seq<FetchEvent>,
                           active: Option<int>, until: Option<int>, world: int -> Scrapper.Capabilities)
      reads this, scrapper
    {
      && Valid() && scrapper != null
      && whole == Glued(used, steps, events, DateWalk(scrapper.isPrivateEndpoint, scrapper.options, active, until, world))
      && Tracks(runs0, trace0, fetched0, mutations0, errors0, mutate, used, steps, events)
      && scrapper.options == (if used == [] then o0 else used[|used| - 1])
    }

    /** One day of `manageScrap`: `setDate` is overwritten with the day, then
        `getData` runs and its FETCH events are forwarded when the listener is
        installed. The day's options, steps and events extend the days run. */
    method RunDay(day: int, until: Option<int>, world: int -> Scrapper.Capabilities, mutate: string -> MutationReply,
                  ghost o0: Scrapper.ScrapperOptions, ghost whole: Walked,
                  ghost runs0: seq<Scrapper.ScrapperOptions>, ghost trace0: seq<Scrapper.Step>,
                  ghost fetched0: seq<FetchEvent>, ghost mutations0: seq<string>, ghost errors0: seq<string>,
                  ghost used: seq<Scrapper.ScrapperOptions>, ghost steps: seq<Scrapper.Step>,
                  ghost events: seq<FetchEvent>)
      returns (result: Result<Scrapper.Product>, ghost used': seq<Scrapper.ScrapperOptions>,
               ghost steps': seq<Scrapper.Step>, ghost events': seq<FetchEvent>)
      requires Before(Some(day), until)
      requires Midway(o0, whole, runs0, trace0, fetched0, mutations0, errors0, mutate,
                      used, steps, events, Some(day), until, world)
      modifies this`mutations, this`errors, scrapper
      ensures result.Success? ==>
        Midway(o0, whole, runs0, trace0, fetched0, mutations0, errors0, mutate,
               used', steps', events', Some(day + DayMs), until, world)
      ensures result.Failure? ==>
        && Valid() && scrapper != null
        && whole == Walked(used', steps', events', Fail(result.error))
        && Tracks(runs0, trace0, fetched0, mutations0, errors0, mutate, used', steps', events')
        && scrapper.options == used'[|used'| - 1]
    {
      WalkStep(scrapper.isPrivateEndpoint, scrapper.options, Some(day), until, DatePatch, world, used, steps, events);
      scrapper.OverwriteConfig(DatePatch(day));
      ghost var run := Scrapper.GetDataRun(scrapper.isPrivateEndpoint, scrapper.options, world(day));
      var before := |scrapper.fetched|;
      result := scrapper.GetData(world(day));
      Deliver(scrapper.fetched[before..], mutate, mutations0, errors0, events);
      AppendAssoc(runs0, used, [scrapper.options]);
      AppendAssoc(trace0, steps, run.steps);
      AppendAssoc(fetched0, events, run.events);
      used', steps', events' := used + [scrapper.options], steps + run.steps, events + run.events;
    }


    /** `start`: installs the FETCH listener (when a scraper is set) and
        subscribes to the task dispositions; the command line calls it once. */
    method Start()
      requires !subscribed
      modifies this`transportInstalled, this`subscribed
      ensures transportInstalled == (old(transportInstalled) || scrapper != null)
      ensures subscribed
    {
      if scrapper != null {
        transportInstalled := true;
      }
      subscribed := true;
    }

    /** One subscription message: one without `data` or without
        `tasksDispositions` is ignored, as is any message before `start`;
        any other runs `manageScrap`, without a check for a walk in flight. */
    method OnSubscription(data: Option<Option<ScrapTask>>, now: int, world: int -> Scrapper.Capabilities,
                          mutate: string -> MutationReply) returns (run: Option<Outcome>)
      requires Valid()
      modifies this`mutations, this`errors, scrapper
      ensures Valid()
      ensures run.None? <==> !subscribed || data.None? || data.value.None?
      ensures run.None? ==> unchanged(this) && (scrapper != null ==> unchanged(scrapper))
      ensures run.Some? ==> ManagedScrap(data.value.value, now, world, mutate, run.value)

    {
      if !subscribed || data.None? || data.value.None? {
        return None;
      }
      var r := ManageScrap(data.value.value, now, world, mutate);
      run := Some(r);
    }
  }
}
