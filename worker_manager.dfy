/** The socket-driven manager (src/manager.ts): it registers with the
    hypervisor (PASSPORT, then VISA), takes SCRAP and DISCONNECT commands one
    at a time, walks the days of a SCRAP from now, and sends every FETCH
    payload to the hypervisor as SCHEDULE. Socket events and the settling of
    the scrape promise are the methods' calls; the hypervisor's messages are
    their arguments. */
module Worker {
  import opened Common
  import Scrapper
  import Manager

  /** The states reported to the hypervisor. */
  datatype HSState = Working | Ready

  /** The arguments of a SCRAP command: `scrapUntil`, and the `limit` and
      `skip` copied into every day's configuration. */
  datatype ScrapArgs = ScrapArgs(scrapUntil: Stamp, limit: Option<int>, skip: Option<int>)

  /** A command from the hypervisor; one the dispatcher has no case for is
      `Unknown`. The argument of a SCRAP is whatever the hypervisor sent:
      `None` stands for a null or missing one, which the cast lets through. */
  datatype Command = Scrap(args: Option<ScrapArgs>) | Disconnect | Unknown(name: string)

  /** A message the manager emits on the socket. */
  datatype Outgoing =
    | Passport(keychain: string)
    | StateReport(state: HSState)
    | Schedule(htmlId: string, body: string)

  /** `pendingPromise`: the walk started by a SCRAP, still running, or one
      that rejected (and so is never cleared). */
  datatype Pending = Running(args: Option<ScrapArgs>) | Rejected(error: string)

  /** The patch `manageScrap` applies before each day: the date, and the
      command's `limit` and `skip`, absent ones included. */
  function WindowPatch(limit: Option<int>, skip: Option<int>): int -> Scrapper.OptionsPatch {
    day => Scrapper.SetDateAndWindow(day, limit, skip)
  }

  /** The walk of `manageScrap` from `active`: each day writes the date and
      the command's `limit` and `skip`; the scraper is never private. */
  function WindowWalk(o: Scrapper.ScrapperOptions, active: Option<int>, until: Option<int>,
                      limit: Option<int>, skip: Option<int>, world: int -> Scrapper.Capabilities): Manager.Walked {
    Manager.Walk(false, o, active, until, WindowPatch(limit, skip), world)
  }

  /** Each day runs with the starting options, that day's date, and the
      command's `limit` and `skip`: nothing else in the configuration moves. */
  lemma {:induction false} WalkKeepsWindow(isPrivate: bool, o: Scrapper.ScrapperOptions, active: Option<int>,
                                           until: Option<int>, limit: Option<int>, skip: Option<int>,
                                           world: int -> Scrapper.Capabilities)
    ensures var w, days := Manager.Walk(isPrivate, o, active, until, WindowPatch(limit, skip), world), DayList(active, until);
      && |w.used| <= |days|
      && forall k :: 0 <= k < |w.used| ==>
           w.used[k] == o.(setDate := Some(days[k]), limit := limit, skip := skip)
    decreases if Before(active, until) then until.value - active.value else 0
  {
    if Before(active, until) {
      var o' := Scrapper.Patched(o, WindowPatch(limit, skip)(active.value));
      assert o' == o.(setDate := Some(active.value), limit := limit, skip := skip);
      var run := Scrapper.GetDataRun(isPrivate, o', world(active.value));
      var next := Some(active.value + DayMs);
      var days := DayList(active, until);
      assert days == [active.value] + DayList(next, until);
      if run.result.Success? {
        WalkKeepsWindow(isPrivate, o', next, until, limit, skip, world);
        var w := Manager.Walk(isPrivate, o, active, until, WindowPatch(limit, skip), world);
        var rest := Manager.Walk(isPrivate, o', next, until, WindowPatch(limit, skip), world);
        assert w.used == [o'] + rest.used;
        forall k | 1 <= k < |w.used|
          ensures w.used[k] == o.(setDate := Some(days[k]), limit := limit, skip := skip)
        {
          assert w.used[k] == rest.used[k - 1] && days[k] == DayList(next, until)[k - 1];
        }
      }
    }
  }

  /** The SCHEDULE messages for a list of FETCH events: one per truthy body,
      in order. */
  function Scheduled(events: seq<FetchEvent>): seq<Outgoing> {
    if events == [] then []
    else
      var head := if Truthy(events[0].body) then [Schedule(events[0].htmlId, events[0].body.value)] else [];
      head + Scheduled(events[1..])
  }

  lemma {:induction false} ScheduledAppend(a: seq<FetchEvent>, b: seq<FetchEvent>)
    ensures Scheduled(a + b) == Scheduled(a) + Scheduled(b)
  {
    if a == [] {
      assert a + b == b;
    } else {
      var head := if Truthy(a[0].body) then [Schedule(a[0].htmlId, a[0].body.value)] else [];
      assert (a + b)[0] == a[0] && (a + b)[1..] == a[1..] + b;
      calc {
        Scheduled(a + b);
        head + Scheduled(a[1..] + b);
        { ScheduledAppend(a[1..], b); }
        head + (Scheduled(a[1..]) + Scheduled(b));
        { AppendAssoc(head, Scheduled(a[1..]), Scheduled(b)); }
        Scheduled(a) + Scheduled(b);
      }
    }
  }

  /** Both managers pass on the same payloads in the same order: the bodies
      scheduled here are the bodies src/manager/base.ts sends as
      `processFragment`. */
  lemma {:induction false} ScheduledAgreesWithForwarded(events: seq<FetchEvent>)
    ensures |Scheduled(events)| == |Manager.Forwarded(events)|
    ensures forall i :: 0 <= i < |Scheduled(events)| ==>
      Scheduled(events)[i].Schedule? && Scheduled(events)[i].body == Manager.Forwarded(events)[i]
  {
    if events != [] {
      ScheduledAgreesWithForwarded(events[1..]);
      var s, f := Scheduled(events), Manager.Forwarded(events);
      var s', f' := Scheduled(events[1..]), Manager.Forwarded(events[1..]);
      if Truthy(events[0].body) {
        assert s == [Schedule(events[0].htmlId, events[0].body.value)] + s';
        assert f == [events[0].body.value] + f';
        forall i | 1 <= i < |s| ensures s[i] == s'[i - 1] && f[i] == f'[i - 1] { }
      } else {
        assert s == s' && f == f';
      }
    }
  }

  /** Every SCHEDULE names an event's id and carries its non-empty body. */
  lemma {:induction false} ScheduledSound(events: seq<FetchEvent>, m: Outgoing)
    requires m in Scheduled(events)
    ensures m.Schedule? && m.body != "" && FetchEvent(m.htmlId, Some(m.body)) in events
  {
    if events != [] {
      if m !in Scheduled(events[1..]) {
        assert m == Schedule(events[0].htmlId, events[0].body.value);
        assert events[0] == FetchEvent(m.htmlId, Some(m.body));
      } else {
        ScheduledSound(events[1..], m);
      }
    }
  }

  /** The reason socket.io gives when the client itself disconnects. */
  const ClientDisconnect: string := "io client disconnect"

  /** The TypeError `manageScrap` throws when it reads `scrapUntil` of a null
      argument, before it logs or runs any day. */
  const NullArgsError: string := "TypeError: Cannot read properties of null (reading 'scrapUntil')"

  /** The manager: its scraper (public, so never short of credentials), what
      it sent on the socket, the errors it logged, `pendingPromise`, which
      one-shot socket handlers are still armed, and whether the process has
      exited. */
  class WorkerManager {
    const scrapper: Scrapper.ScrapperBase
    var outbox: seq<Outgoing>
    var errors: seq<string>
    var pending: Option<Pending>
    var started: bool
    var registered: bool
    var connectArmed: bool
    var disconnectArmed: bool
    var visaArmed: bool
    var commandsInstalled: bool
    var socketOpen: bool
    var exited: bool

    /** Commands are handled only once the VISA has come, which is awaited only
        after the PASSPORT went out (`registered`); a walk is pending only if a command
        started it. */
    ghost predicate Valid()
      reads this, scrapper
    {
      && scrapper.Valid() && !scrapper.isPrivateEndpoint
      && (visaArmed || commandsInstalled ==> registered)
      && !(visaArmed && commandsInstalled)
      && (pending.Some? ==> commandsInstalled)
    }

    constructor (options: Scrapper.ScrapperOptions)
      ensures Valid()
      ensures fresh(scrapper) && scrapper.options == options
      ensures scrapper.trace == [] && scrapper.fetched == [] && scrapper.runs == []
      ensures outbox == [] && errors == [] && pending == None
      ensures !started && !registered && !connectArmed && !disconnectArmed && !visaArmed && !commandsInstalled
      ensures !socketOpen && !exited
    {
      scrapper := new Scrapper.ScrapperBase(false, options);
      outbox := [];
      errors := [];
      pending := None;
      started := false;
      registered := false;
      connectArmed := false;
      disconnectArmed := false;
      visaArmed := false;
      commandsInstalled := false;
      socketOpen := false;
      exited := false;
    }

    /** `transporter`: an error in the context is logged; a truthy body is
        sent as SCHEDULE `{htmlId, body}`. */
    method Transporter(htmlId: string, body: Option<string>, error: Option<string>)
      modifies this`outbox, this`errors
      ensures outbox == old(outbox) + Scheduled([FetchEvent(htmlId, body)])
      ensures errors == old(errors) + (if error.Some? then [error.value] else [])
    {
      if error.Some? {
        errors := errors + [error.value];
      }
      if Truthy(body) {
        outbox := outbox + [Schedule(htmlId, body.value)];
      }
    }

    /** The FETCH listener the constructor installs, applied to the events of
        one `getData`, in the order they were emitted. */
    method Relay(events: seq<FetchEvent>)
      modifies this`outbox, this`errors
      ensures outbox == old(outbox) + Scheduled(events)
      ensures errors == old(errors)
    {
      var i := 0;
      while i < |events|
        invariant 0 <= i <= |events|
        invariant outbox == old(outbox) + Scheduled(events[..i])
        invariant errors == old(errors)
      {
        Transporter(events[i].htmlId, events[i].body, None);
        assert events[..i + 1] == events[..i] + [events[i]];
        ScheduledAppend(events[..i], [events[i]]);
        i := i + 1;
      }
      assert events[..|events|] == events;
    }

    /** `updateState`: the state is sent on the socket. */
    method UpdateState(state: HSState)
      modifies this`outbox
      ensures outbox == old(outbox) + [StateReport(state)]
    {
      outbox := outbox + [StateReport(state)];
    }

    /** `start`: opens the socket and arms the one-shot `connect` and
        `disconnect` handlers; the command line calls it once. */
    method Start()
      requires Valid() && !started
      modifies this`started, this`socketOpen, this`connectArmed, this`disconnectArmed
      ensures Valid()
      ensures started && socketOpen && connectArmed && disconnectArmed
    {
      started := true;
      socketOpen := true;
      connectArmed := true;
      disconnectArmed := true;
    }

    /** The `connect` event (`register`): only the first one is handled; it
        sends the PASSPORT and arms the one-shot VISA handler. */
    method OnConnect(keychain: string)
      requires Valid()
      modifies this`outbox, this`connectArmed, this`registered, this`visaArmed
      ensures Valid()
      ensures old(connectArmed) && !exited ==>
        && outbox == old(outbox) + [Passport(keychain)]
        && registered && !connectArmed && visaArmed == !commandsInstalled
      ensures !(old(connectArmed) && !exited) ==> unchanged(this)
    {
      if !connectArmed || exited {
        return;
      }
      connectArmed := false;
      outbox := outbox + [Passport(keychain)];
      registered := true;
      if !commandsInstalled {
        visaArmed := true;
      }
    }

    /** The VISA event: handled once; it installs the command handler and
        reports READY. */
    method OnVisa()
      requires Valid()
      modifies this`outbox, this`visaArmed, this`commandsInstalled
      ensures Valid()
      ensures old(visaArmed) && !exited ==>
        && outbox == old(outbox) + [StateReport(Ready)]
        && !visaArmed && commandsInstalled
      ensures !(old(visaArmed) && !exited) ==> unchanged(this)
    {
      if !visaArmed || exited {
        return;
      }
      visaArmed := false;
      commandsInstalled := true;
      UpdateState(Ready);
    }

    /** A COMMAND event: dropped until the VISA has installed the handler. */
    method OnCommand(cmd: Command)
      requires Valid()
      modifies this`outbox, this`errors, this`pending, this`socketOpen, this`disconnectArmed, this`exited
      ensures Valid()
      ensures !commandsInstalled || old(exited) ==> unchanged(this)
      ensures commandsInstalled && !old(exited) ==> Handled(cmd)
    {
      if !commandsInstalled || exited {
        return;
      }
      HandleCommand(cmd);
    }

    /** What `handleCommand(cmd)` does: WORKING is reported first, always;
        with a walk pending nothing else happens; otherwise a SCRAP starts a
        walk, and a DISCONNECT closes the socket, which fires the `disconnect`
        event: when `start` armed its handler, the process exits. */
    twostate predicate Handled(cmd: Command)
      reads this
    {
      && outbox == old(outbox) + [StateReport(Working)]
      && errors == old(errors)
      && (old(pending).Some? || !cmd.Disconnect? ==>
            socketOpen == old(socketOpen) && disconnectArmed == old(disconnectArmed) && exited == old(exited))
      && (old(pending).Some? ==> pending == old(pending))
      && (old(pending).None? ==>
            && (cmd.Scrap? ==> pending == Some(Running(cmd.args)))
            && (cmd.Disconnect? ==>
                  pending == None && !socketOpen
                  && exited == (old(exited) || old(disconnectArmed))
                  && disconnectArmed == (old(disconnectArmed) && old(exited)))
            && (cmd.Unknown? ==> pending == None))
    }

    /** `handleCommand`: the single-flight dispatcher. */
    method HandleCommand(cmd: Command)
      requires Valid() && commandsInstalled
      modifies this`outbox, this`errors, this`pending, this`socketOpen, this`disconnectArmed, this`exited
      ensures Valid()
      ensures Handled(cmd)
    {
      UpdateState(Working);
      if pending.Some? {
        return;
      }
      match cmd
      case Scrap(args) =>
        pending := Some(Running(args));
      case Disconnect =>
        socketOpen := false;
        OnDisconnect(ClientDisconnect);
      case Unknown(_) =>
    }

    /** The pending walk settles: `manageScrap` runs from `now`; when it
        resolves the guard is cleared first and READY reported after; when it
        rejects the guard stays set and nothing is reported. A null argument
        rejects at once, with no day run. */
    method SettlePending(now: int, world: int -> Scrapper.Capabilities) returns (r: Option<Outcome>)
      requires Valid()
      modifies this`outbox, this`errors, this`pending, scrapper
      ensures Valid()
      ensures errors == old(errors)
      ensures r.None? <==> exited || old(pending).None? || old(pending).value.Rejected?
      ensures r.None? ==> unchanged(this) && unchanged(scrapper)
      ensures r.Some? && old(pending).value.args.None? ==>
        && r.value == Fail(NullArgsError)
        && pending == Some(Rejected(NullArgsError))
        && outbox == old(outbox)
        && unchanged(scrapper)
      ensures r.Some? && old(pending).value.args.Some? ==>
        var args := old(pending).value.args.value;
        var w := WindowWalk(old(scrapper.options), Some(now), Manager.UntilOf(args.scrapUntil),
                            args.limit, args.skip, world);
        && r.value == w.outcome
        && scrapper.runs == old(scrapper.runs) + w.used
        && scrapper.trace == old(scrapper.trace) + w.steps
        && scrapper.fetched == old(scrapper.fetched) + w.events
        && (w.outcome.Pass? ==>
              pending == None && outbox == old(outbox) + Scheduled(w.events) + [StateReport(Ready)])
        && (w.outcome.Fail? ==>
              pending == Some(Rejected(w.outcome.error)) && outbox == old(outbox) + Scheduled(w.events))
    {
      if exited || pending.None? || pending.value.Rejected? {
        return None;
      }
      if pending.value.args.None? {
        pending := Some(Rejected(NullArgsError));
        return Some(Fail(NullArgsError));
      }
      var args := pending.value.args.value;
      var outcome := ManageScrap(args, now, world);
      r := Some(outcome);
      if outcome.Fail? {
        pending := Some(Rejected(outcome.error));
        return;
      }
      pending := None;
      UpdateState(Ready);
    }

    /** The scraper's logs and the SCHEDULE messages are the starting ones
        followed by what the days run so far (`used`, `steps`, `events`)
        produced. */
    ghost predicate Tracks(runs0: seq<Scrapper.ScrapperOptions>, trace0: seq<Scrapper.Step>,
                           fetched0: seq<FetchEvent>, outbox0: seq<Outgoing>,
                           used: seq<Scrapper.ScrapperOptions>, steps: seq<Scrapper.Step>, events: seq<FetchEvent>)
      reads this, scrapper
    {
      && scrapper.runs == runs0 + used
      && scrapper.trace == trace0 + steps
      && scrapper.fetched == fetched0 + events
      && outbox == outbox0 + Scheduled(events)
    }

    /** `manageScrap(args)`: walks the days from now while before
        `scrapUntil`, one `getData` per day with the date and the command's
        `limit` and `skip` written into the configuration; rejects with the
        first rejection. */
    method ManageScrap(args: ScrapArgs, now: int, world: int -> Scrapper.Capabilities) returns (r: Outcome)
      requires Valid()
      modifies this`outbox, this`errors, scrapper
      ensures Valid()
      ensures errors == old(errors)
      ensures var w := WindowWalk(old(scrapper.options), Some(now), Manager.UntilOf(args.scrapUntil),
                                  args.limit, args.skip, world);
        && r == w.outcome
        && scrapper.options == (if w.used == [] then old(scrapper.options) else w.used[|w.used| - 1])
        && Tracks(old(scrapper.runs), old(scrapper.trace), old(scrapper.fetched), old(outbox),
                  w.used, w.steps, w.events)
    {
      var until := Manager.UntilOf(args.scrapUntil);
      var active := Some(now);
      ghost var o0, runs0, trace0, fetched0 := scrapper.options, scrapper.runs, scrapper.trace, scrapper.fetched;
      ghost var outbox0, errors0 := outbox, errors;
      ghost var used: seq<Scrapper.ScrapperOptions> := [];
      ghost var steps: seq<Scrapper.Step> := [];
      ghost var events: seq<FetchEvent> := [];
      ghost var whole := WindowWalk(o0, active, until, args.limit, args.skip, world);
      assert [] + whole.used == whole.used && [] + whole.steps == whole.steps && [] + whole.events == whole.events;
      while Before(active, until)
        invariant Midway(args, o0, whole, runs0, trace0, fetched0, outbox0, errors0, used, steps, events,
                         active, until, world)
        decreases if Before(active, until) then until.value - active.value else 0
      {
        var result;
        result, used, steps, events := RunDay(active.value, until, args, world, o0, whole, runs0, trace0,
                                              fetched0, outbox0, errors0, used, steps, events);
        if result.Failure? {
          return Fail(result.error);
        }
        active := Some(active.value + DayMs);
      }
      assert used + [] == used && steps + [] == steps && events + [] == events;
      r := Pass;
    }

    /** Midway through the day loop, at day `active`: the days run so far
        followed by the walk still ahead make up the `whole` walk, the logs
        track the days run, and the scraper holds the last day's options. */
    ghost predicate Midway(args: ScrapArgs, o0: Scrapper.ScrapperOptions, whole: Manager.Walked,
                           runs0: seq<Scrapper.ScrapperOptions>, trace0: seq<Scrapper.Step>,
                           fetched0: seq<FetchEvent>, outbox0: seq<Outgoing>, errors0: seq<string>,
                           used: seq<Scrapper.ScrapperOptions>, steps: seq<Scrapper.Step>, events: seq<FetchEvent>,
                           active: Option<int>, until: Option<int>, world: int -> Scrapper.Capabilities)
      reads this, scrapper
    {
      && Valid() && errors == errors0
      && whole == Manager.Glued(used, steps, events,
                                WindowWalk(scrapper.options, active, until, args.limit, args.skip, world))
      && Tracks(runs0, trace0, fetched0, outbox0, used, steps, events)
      && scrapper.options == (if used == [] then o0 else used[|used| - 1])
    }

    /** One day of `manageScrap`: the date and the window are written, then
        `getData` runs and its FETCH events are scheduled. The day's options,
        steps and events extend the days run. */
    method RunDay(day: int, until: Option<int>, args: ScrapArgs, world: int -> Scrapper.Capabilities,
                  ghost o0: Scrapper.ScrapperOptions, ghost whole: Manager.Walked,
                  ghost runs0: seq<Scrapper.ScrapperOptions>, ghost trace0: seq<Scrapper.Step>,
                  ghost fetched0: seq<FetchEvent>, ghost outbox0: seq<Outgoing>, ghost errors0: seq<string>,
                  ghost used: seq<Scrapper.ScrapperOptions>, ghost steps: seq<Scrapper.Step>,
                  ghost events: seq<FetchEvent>)
      returns (result: Result<Scrapper.Product>, ghost used': seq<Scrapper.ScrapperOptions>,
               ghost steps': seq<Scrapper.Step>, ghost events': seq<FetchEvent>)
      requires Before(Some(day), until)
      requires Midway(args, o0, whole, runs0, trace0, fetched0, outbox0, errors0, used, steps, events,
                      Some(day), until, world)
      modifies this`outbox, this`errors, scrapper
      ensures result.Success? ==>
        Midway(args, o0, whole, runs0, trace0, fetched0, outbox0, errors0, used', steps', events',
               Some(day + DayMs), until, world)
      ensures result.Failure? ==>
        && Valid() && errors == errors0
        && whole == Manager.Walked(used', steps', events', Fail(result.error))
        && Tracks(runs0, trace0, fetched0, outbox0, used', steps', events')
        && scrapper.options == used'[|used'| - 1]
    {
      Manager.WalkStep(false, scrapper.options, Some(day), until, WindowPatch(args.limit, args.skip), world,
                       used, steps, events);
      ghost var o := Scrapper.Patched(scrapper.options, Scrapper.SetDateAndWindow(day, args.limit, args.skip));
      ghost var run := Scrapper.GetDataRun(false, o, world(day));
      result := ScrapDay(day, args, world);
      ScheduleStep(outbox0, events, run.events);
      AppendAssoc(runs0, used, [o]);
      AppendAssoc(trace0, steps, run.steps);
      AppendAssoc(fetched0, events, run.events);
      used', steps', events' := used + [o], steps + run.steps, events + run.events;
    }

    /** The body of the day loop: the date and the window are written, then
        `getData` runs; each FETCH event it emits is relayed as a SCHEDULE. */
    method ScrapDay(day: int, args: ScrapArgs, world: int -> Scrapper.Capabilities)
      returns (result: Result<Scrapper.Product>)
      requires Valid()
      modifies this`outbox, this`errors, scrapper
      ensures Valid() && errors == old(errors)
      ensures var o := Scrapper.Patched(old(scrapper.options), Scrapper.SetDateAndWindow(day, args.limit, args.skip));
        var run := Scrapper.GetDataRun(false, o, world(day));
        && result == run.result
        && scrapper.options == o
        && scrapper.runs == old(scrapper.runs) + [o]
        && scrapper.trace == old(scrapper.trace) + run.steps
        && scrapper.fetched == old(scrapper.fetched) + run.events
        && outbox == old(outbox) + Scheduled(run.events)
    {
      scrapper.OverwriteConfig(Scrapper.SetDateAndWindow(day, args.limit, args.skip));
      var before := |scrapper.fetched|;
      result := scrapper.GetData(world(day));
      Relay(scrapper.fetched[before..]);
    }

    /** The `disconnect` event: handled once, it ends the process. */
    method OnDisconnect(reason: string)
      requires Valid()
      modifies this`errors, this`disconnectArmed, this`exited
      ensures Valid()
      ensures old(disconnectArmed) && !old(exited) ==> exited && !disconnectArmed && errors == old(errors)
      ensures !(old(disconnectArmed) && !old(exited)) ==> unchanged(this)
    {
      if !disconnectArmed || exited {
        return;
      }
      disconnectArmed := false;
      exited := true;
    }
  }

  /** What scheduling the events of one more day appends to the outbox. */
  lemma ScheduleStep(outbox0: seq<Outgoing>, events: seq<FetchEvent>, more: seq<FetchEvent>)
    ensures outbox0 + Scheduled(events) + Scheduled(more) == outbox0 + Scheduled(events + more)
  {
    ScheduledAppend(events, more);
    AppendAssoc(outbox0, Scheduled(events), Scheduled(more));
  }
}
