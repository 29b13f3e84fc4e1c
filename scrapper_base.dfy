/** The scrape lifecycle shared by every scraping strategy
    (src/scrapper/base.ts): the options a scraper is configured with, the
    skip/limit window `reduce` applies, the credential check in `begin`, and
    the fixed order of steps in `getData`. A strategy's own `prepare` and
    `scrap` are given to `getData` as capabilities: what `prepare` resolves to
    (or that the strategy has none), and what `scrap` emits and resolves to for
    the list it is handed. */
module Scrapper {
  import opened Common

  datatype ScrapperOptions = ScrapperOptions(
    credentials: Option<map<string, string>>,
    skip: Option<int>,
    limit: Option<int>,
    setDate: Option<int>,
    timeout: Option<int>,
    repeatFailures: Option<bool>)

  /** The keys a manager writes with `overwriteConfig` before each day:
      `src/manager/base.ts` writes only `setDate`, `src/manager.ts` also writes
      `limit` and `skip` (an absent value overwrites with undefined). */
  datatype OptionsPatch =
    | SetDate(date: int)
    | SetDateAndWindow(date: int, limit: Option<int>, skip: Option<int>)

  function Patched(o: ScrapperOptions, p: OptionsPatch): ScrapperOptions {
    match p
    case SetDate(d) => o.(setDate := Some(d))
    case SetDateAndWindow(d, l, s) => o.(setDate := Some(d), limit := l, skip := s)
  }

  /** A patch sets the date, and the window when it carries one; the
      credentials, the timeout and `repeatFailures` are kept. */
  lemma PatchedFields(o: ScrapperOptions, p: OptionsPatch)
    ensures var r := Patched(o, p);
      && r.setDate == Some(p.date)
      && r.credentials == o.credentials && r.timeout == o.timeout && r.repeatFailures == o.repeatFailures
      && (p.SetDate? ==> r.limit == o.limit && r.skip == o.skip)
      && (p.SetDateAndWindow? ==> r.limit == p.limit && r.skip == p.skip)
  {
  }

  // ---------------------------------------------------------------------------
  // reduce: Array.prototype.slice(skip, limit ? limit + (skip ?? 0) : undefined)
  // ---------------------------------------------------------------------------

  /** How `slice` reads one bound: a negative bound counts from the end, and
      every bound is clamped into [0, len]. */
  function SliceIndex(i: int, len: nat): (r: nat)
    ensures r <= len
  {
    if i < 0 then (if len + i < 0 then 0 else len + i)
    else if i > len then len
    else i
  }

  /** `xs.slice(start, end)`; an undefined start is 0, an undefined end is the length. */
  function Slice<T>(xs: seq<T>, start: Option<int>, end: Option<int>): seq<T> {
    var s := if start.None? then 0 else SliceIndex(start.value, |xs|);
    var e := if end.None? then |xs| else SliceIndex(end.value, |xs|);
    if s < e then xs[s..e] else []
  }

  /** Where the window starts: at `skip`, or at 0 when `skip` is undefined. */
  function WindowStart(n: nat, skip: Option<int>): nat {
    if skip.None? then 0 else SliceIndex(skip.value, n)
  }

  /** `reduce(elements)`: `limit` is tested for truthiness, so a limit of 0
      (like an undefined one) imposes no upper bound. */
  function Reduce<T>(xs: seq<T>, skip: Option<int>, limit: Option<int>): seq<T> {
    Slice(xs, skip, if limit.Some? && limit.value != 0 then Some(limit.value + skip.GetOr(0)) else None)
  }

  /** What `reduce` keeps: a contiguous piece of the input starting at
      `skip`, everything from there on without a (truthy) limit, and `limit`
      elements, or all that are left, with one. */
  lemma ReduceWindow<T>(xs: seq<T>, skip: Option<int>, limit: Option<int>)
    ensures var r := Reduce(xs, skip, limit);
      // order kept, nothing added
      && |r| <= |xs| - WindowStart(|xs|, skip)
      && r == xs[WindowStart(|xs|, skip)..WindowStart(|xs|, skip) + |r|]
      // no limit: everything from `skip` on
      && (limit.None? || limit == Some(0) ==> r == xs[WindowStart(|xs|, skip)..])
      // a positive limit with a non-negative skip: at most `limit` elements,
      // and exactly `limit` when that many are left
      && (limit.Some? && limit.value > 0 && (skip.None? || skip.value >= 0) ==>
            |r| == if |xs| - WindowStart(|xs|, skip) < limit.value then |xs| - WindowStart(|xs|, skip) else limit.value)
  {
  }

  /** A negative limit is truthy too: with no skip it ends the window that many
      elements before the end of the list. */
  lemma NegativeLimitDropsTail<T>(xs: seq<T>, limit: int)
    requires limit < 0 && -limit <= |xs|
    ensures Reduce(xs, None, Some(limit)) == xs[..|xs| + limit]
  {
  }

  // ---------------------------------------------------------------------------
  // getData
  // ---------------------------------------------------------------------------

  type Product = seq<Option<string>>

  /** What a strategy's `scrap` does for the list it is handed: the FETCH
      events it emits, then how its promise settles. */
  datatype ScrapRun = ScrapRun(events: seq<FetchEvent>, product: Result<Product>)

  /** What one `getData` meets: how the browser's `newPage()` and the page's
      `close()` settle, the strategy's `prepare` (None when the strategy
      defines none; otherwise how its promise settles) and its `scrap`. */
  datatype Capabilities = Capabilities(
    open: Outcome,
    close: Outcome,
    prepare: Option<Result<seq<string>>>,
    scrap: Option<seq<string>> -> ScrapRun)

  /** The steps of `getData`, as they happen. */
  datatype Step = Begun | Prepared | Reduced | Scrapped(input: Option<seq<string>>) | Cleaned

  /** `begin` throws when the endpoint is private and no credentials are set. */
  predicate MissingCredentials(isPrivate: bool, o: ScrapperOptions) {
    isPrivate && o.credentials.None?
  }

  /** What `scrap` is handed when `prepare` did not throw: undefined without
      `prepare`, else the reduced list `prepare` resolved to. */
  function ScrapInput(o: ScrapperOptions, caps: Capabilities): Option<seq<string>> {
    if caps.prepare.Some? && caps.prepare.value.Success? then
      Some(Reduce(caps.prepare.value.value, o.skip, o.limit))
    else None
  }

  /** What one call of `getData` does: the steps reached, the FETCH events
      emitted, and how it settles. */
  datatype Run = Run(steps: seq<Step>, events: seq<FetchEvent>, result: Result<Product>)

  function GetDataRun(isPrivate: bool, o: ScrapperOptions, caps: Capabilities): Run
  {
    if MissingCredentials(isPrivate, o) then Run([], [], Failure("Missing credentials"))
    else if caps.open.Fail? then Run([], [], Failure(caps.open.error))
    else if caps.prepare.Some? && caps.prepare.value.Failure? then
      Run([Begun], [], Failure(caps.prepare.value.error))
    else
      var input := ScrapInput(o, caps);
      var before := [Begun] + (if caps.prepare.Some? then [Prepared, Reduced] else []) + [Scrapped(input)];
      var s := caps.scrap(input);
      if s.product.Failure? then Run(before, s.events, s.product)
      else if caps.close.Fail? then Run(before + [Cleaned], s.events, Failure(caps.close.error))
      else Run(before + [Cleaned], s.events, s.product)
  }

  /** The order `getData` goes through its steps and how it settles. */
  lemma GetDataRunShape(isPrivate: bool, o: ScrapperOptions, caps: Capabilities)
    ensures var run := GetDataRun(isPrivate, o, caps);
      // the credential check comes first, before a page is opened; a page
      // that cannot be opened ends `getData` before any step
      && (MissingCredentials(isPrivate, o) || caps.open.Fail? <==> run.steps == [])
      && (MissingCredentials(isPrivate, o) ==> run.result == Failure("Missing credentials") && run.events == [])
      && (!MissingCredentials(isPrivate, o) && caps.open.Fail? ==>
            run.result == Failure(caps.open.error) && run.events == [])
      && (run.steps != [] ==> run.steps[0] == Begun)
      // `clean` is reached exactly when nothing before it threw: no try/finally
      && (Cleaned in run.steps ==> run.steps[|run.steps| - 1] == Cleaned)
      && (run.result.Success? <==> Cleaned in run.steps && caps.close.Pass?)
      // a page that cannot be closed rejects `getData`, and scrap's result is lost
      && (Cleaned in run.steps && caps.close.Fail? ==> run.result == Failure(caps.close.error))
      // prepare and reduce run only when the strategy has a prepare
      && (Prepared in run.steps ==> caps.prepare.Some?)
      // on success: begin, [prepare, reduce,] scrap, clean, returning scrap's result
      && (run.result.Success? ==>
        var input := ScrapInput(o, caps);
        && run.steps == [Begun] + (if caps.prepare.Some? then [Prepared, Reduced] else []) + [Scrapped(input), Cleaned]
        && run.result == caps.scrap(input).product
        && run.events == caps.scrap(input).events)
      // without prepare, scrap is handed undefined
      && (caps.prepare.None? && !MissingCredentials(isPrivate, o) && caps.open.Pass? ==>
        |run.steps| >= 2 && run.steps[0] == Begun && run.steps[1] == Scrapped(None))
  {
  }

  /** The state `getData` works on: the options, the browser pages opened by
      `begin` (`activePage`), and logs of the steps taken, the FETCH events
      emitted, and the options each `getData` call ran with. */
  class ScrapperBase {
    const isPrivateEndpoint: bool
    var options: ScrapperOptions
    var activePage: Option<nat>
    var openPages: set<nat>
    var pagesCreated: nat
    var trace: seq<Step>
    var fetched: seq<FetchEvent>
    var runs: seq<ScrapperOptions>

    ghost predicate Valid()
      reads this
    {
      (forall p :: p in openPages ==> p < pagesCreated) &&
      (activePage.Some? ==> activePage.value < pagesCreated)
    }

    constructor (isPrivateEndpoint: bool, options: ScrapperOptions)
      ensures Valid()
      ensures this.isPrivateEndpoint == isPrivateEndpoint && this.options == options
      ensures activePage == None && openPages == {} && pagesCreated == 0
      ensures trace == [] && fetched == [] && runs == []
    {
      this.isPrivateEndpoint := isPrivateEndpoint;
      this.options := options;
      activePage := None;
      openPages := {};
      pagesCreated := 0;
      trace := [];
      fetched := [];
      runs := [];
    }

    method OverwriteConfig(patch: OptionsPatch)
      modifies this`options
      ensures options == Patched(old(options), patch)
    {
      options := Patched(options, patch);
    }

    /** `begin`: the credential check, then `browser.newPage()`, which settles
        as `newPage` says; the page it resolves to becomes the active one. */
    method Begin(newPage: Outcome) returns (o: Outcome)
      requires Valid()
      modifies this
      ensures Valid()
      ensures MissingCredentials(isPrivateEndpoint, options) ==>
        o == Fail("Missing credentials") && unchanged(this)
      ensures !MissingCredentials(isPrivateEndpoint, options) && newPage.Fail? ==>
        o == newPage && unchanged(this)
      ensures !MissingCredentials(isPrivateEndpoint, options) && newPage.Pass? ==>
        && o == Pass
        && activePage == Some(old(pagesCreated))
        && openPages == old(openPages) + {old(pagesCreated)}
        && pagesCreated == old(pagesCreated) + 1
        && trace == old(trace) + [Begun]
        && fetched == old(fetched) && runs == old(runs) && options == old(options)
    {
      if isPrivateEndpoint && options.credentials.None? {
        return Fail("Missing credentials");
      }
      if newPage.Fail? {
        return newPage;
      }
      activePage := Some(pagesCreated);
      openPages := openPages + {pagesCreated};
      pagesCreated := pagesCreated + 1;
      trace := trace + [Begun];
      o := Pass;
    }

    /** `clean`: closes the active page, if any, and the close settles as
        `closed` says; a rejected close leaves the page open. `activePage`
        keeps naming it. */
    method Clean(closed: Outcome) returns (o: Outcome)
      requires Valid()
      modifies this`openPages, this`trace
      ensures Valid()
      ensures o == (if activePage.Some? then closed else Pass)
      ensures openPages == if activePage.Some? && closed.Pass? then old(openPages) - {activePage.value} else old(openPages)
      ensures trace == old(trace) + [Cleaned]
    {
      trace := trace + [Cleaned];
      o := Pass;
      if activePage.Some? {
        if closed.Fail? {
          return closed;
        }
        openPages := openPages - {activePage.value};
      }
    }

    /** `getData`: begin, then prepare and reduce when the strategy has a
        prepare, then scrap, then clean; settles as scrap does. */
    method GetData(caps: Capabilities) returns (r: Result<Product>)
      requires Valid()
      modifies this
      ensures Valid()
      ensures var run := GetDataRun(isPrivateEndpoint, old(options), caps);
        && r == run.result
        && trace == old(trace) + run.steps
        && fetched == old(fetched) + run.events
      ensures runs == old(runs) + [old(options)] && options == old(options)
      // the page `begin` opened is closed again only when `clean` is reached
      ensures !MissingCredentials(isPrivateEndpoint, old(options)) && caps.open.Pass? ==>
        && activePage == Some(old(pagesCreated))
        && openPages == old(openPages) + (if r.Success? then {} else {old(pagesCreated)})
      ensures MissingCredentials(isPrivateEndpoint, old(options)) || caps.open.Fail? ==>
        activePage == old(activePage) && openPages == old(openPages)
    {
      ghost var run := GetDataRun(isPrivateEndpoint, options, caps);
      runs := runs + [options];
      var begun := Begin(caps.open);
      if begun.Fail? {
        return Failure(begun.error);
      }
      var input: Option<seq<string>> := None;
      if caps.prepare.Some? {
        if caps.prepare.value.Failure? {
          return Failure(caps.prepare.value.error);
        }
        trace := trace + [Prepared];
        input := Some(Reduce(caps.prepare.value.value, options.skip, options.limit));
        trace := trace + [Reduced];
      }
      assert input == ScrapInput(options, caps);
      var s := caps.scrap(input);
      trace := trace + [Scrapped(input)];
      fetched := fetched + s.events;
      if s.product.Failure? {
        assert trace == old(trace) + run.steps;
        return s.product;
      }
      assert old(pagesCreated) !in old(openPages);
      var cleaned := Clean(caps.close);
      assert trace == old(trace) + run.steps;
      if cleaned.Fail? {
        return Failure(cleaned.error);
      }
      r := s.product;
    }
  }
}
