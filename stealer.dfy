/** The HTTP-forgery scraper (src/scrapper/stealer.ts): it replays the
    ASP.NET postback protocol of the timetable page. It keeps the three
    hidden-form tokens, refuses to build a follow-up request unless all three
    are set, reads new tokens from `|`-delimited delta responses, discovers
    the candidate ids of one day, and fetches each id's detail payload chunk by
    chunk, emitting one FETCH event per payload received. */
module Stealer {
  import opened Common
  import opened JsText
  import Scrapper

  // ---------------------------------------------------------------------------
  // The postback tokens and the form parts built from them
  // ---------------------------------------------------------------------------

  const ViewStateKey: string := "__VIEWSTATE"
  const EventValidationKey: string := "__EVENTVALIDATION"
  const ViewStateGeneratorKey: string := "__VIEWSTATEGENERATOR"

  /** `baseStates`: each token may still be undefined (None). */
  datatype BaseStates = BaseStates(
    viewState: Option<string>,
    eventValidation: Option<string>,
    viewStateGenerator: Option<string>)

  const NoStates: BaseStates := BaseStates(None, None, None)

  /** The three tokens are all set and non-empty (the source tests truthiness). */
  predicate Complete(b: BaseStates) {
    Truthy(b.viewState) && Truthy(b.eventValidation) && Truthy(b.viewStateGenerator)
  }

  /** The `baseStatesAsFormParts` getter: an assertion error unless every token
      is set and non-empty; otherwise exactly the three form fields, each bound
      to its token. */
  function FormParts(b: BaseStates): (r: Result<map<string, string>>)
    ensures r.Success? <==> Complete(b)
    ensures r.Failure? ==> r.error == "Missing states!"
    ensures r.Success? ==>
      && r.value.Keys == {ViewStateKey, EventValidationKey, ViewStateGeneratorKey}
      && r.value[ViewStateKey] == b.viewState.value
      && r.value[EventValidationKey] == b.eventValidation.value
      && r.value[ViewStateGeneratorKey] == b.viewStateGenerator.value
  {
    if !Complete(b) then Failure("Missing states!")
    else Success(map[ViewStateKey := b.viewState.value,
                     EventValidationKey := b.eventValidation.value,
                     ViewStateGeneratorKey := b.viewStateGenerator.value])
  }

  // ---------------------------------------------------------------------------
  // Delta responses: `|`-delimited fields
  // ---------------------------------------------------------------------------

  /** `shards[shards.indexOf(key) + 1]`: the field right after the first field
      equal to `key`; field 0 when `key` is absent (indexOf gives -1);
      undefined when `key` is the last field. */
  function FieldAfter(shards: seq<string>, key: string): (r: Option<string>)
    requires |shards| >= 1
    ensures key !in shards ==> r == Some(shards[0])
    ensures forall k :: 0 <= k < |shards| && shards[k] == key && key !in shards[..k] ==>
      r == (if k + 1 < |shards| then Some(shards[k + 1]) else None)
  {
    var i := IndexOf(shards, key) + 1;
    if i < |shards| then Some(shards[i]) else None
  }

  /** The tokens `updateBaseStatesFromDelta` writes: all three from the same body. */
  function DeltaStates(body: string): BaseStates {
    var shards := Split(body, '|');
    BaseStates(FieldAfter(shards, ViewStateKey),
               FieldAfter(shards, EventValidationKey),
               FieldAfter(shards, ViewStateGeneratorKey))
  }

  /** In a body made of `|`-free fields, a token is the field right after the
      first occurrence of its key. */
  lemma DeltaFieldAfterKey(fields: seq<string>, key: string, k: nat)
    requires |fields| >= 1 && forall i :: 0 <= i < |fields| ==> '|' !in fields[i]
    requires k + 1 < |fields| && fields[k] == key && key !in fields[..k]
    ensures FieldAfter(Split(Join(fields, '|'), '|'), key) == Some(fields[k + 1])
  {
    SplitJoin(fields, '|');
  }

  /** A key missing from the body makes its token the body's first field. */
  lemma DeltaMissingKey(fields: seq<string>, key: string)
    requires |fields| >= 1 && forall i :: 0 <= i < |fields| ==> '|' !in fields[i]
    requires key !in fields
    ensures FieldAfter(Split(Join(fields, '|'), '|'), key) == Some(fields[0])
  {
    SplitJoin(fields, '|');
  }

  /** `htmlFromResponse`: field 7 of the `|`-split body, undefined when the
      body has fewer than eight fields. */
  function HtmlFromResponse(body: string): (r: Option<string>)
    ensures r.Some? <==> |Split(body, '|')| >= 8
    ensures r.Some? ==> '|' !in r.value
  {
    var shards := Split(body, '|');
    if |shards| > 7 then Some(shards[7]) else None
  }

  /** For a body of `|`-free fields, the payload is exactly the eighth field,
      and there is none when the body has fewer than eight fields. */
  lemma PayloadIsEighthField(fields: seq<string>)
    requires |fields| >= 1 && forall i :: 0 <= i < |fields| ==> '|' !in fields[i]
    ensures |fields| >= 8 ==> HtmlFromResponse(Join(fields, '|')) == Some(fields[7])
    ensures |fields| < 8 ==> HtmlFromResponse(Join(fields, '|')) == None
  {
    SplitJoin(fields, '|');
  }

  // ---------------------------------------------------------------------------
  // The tooltip client state of a detail request
  // ---------------------------------------------------------------------------

  const IdPlaceholder: string := "{html_id}"
  const TargetKey: string := "\"AjaxTargetControl\":\""
  const ValueKey: string := "\",\"Value\":\""
  const TemplateEnd: string := "\"}"
  /** `{"AjaxTargetControl":"{html_id}","Value":"{html_id}"}`, spelled out
      piece by piece around the two placeholders. */
  const ClientStateTemplate: string := "{" + TargetKey + IdPlaceholder + ValueKey + IdPlaceholder + TemplateEnd

  /** `RadToolTipManager1_ClientState` for a target id. */
  function TooltipClientState(id: string): string {
    ReplaceAll(ClientStateTemplate, IdPlaceholder, id)
  }

  /** A template whose only placeholder occurrences are the two given ones
      gets the expanded replacement in exactly those two places; everything
      else is copied. */
  lemma {:induction false} FillTwice(done: string, p1: string, p2: string, p3: string, pat: string, rep: string)
    requires pat != [] && pat[0] !in p1 && pat[0] !in p2 && pat[0] !in p3
    ensures ReplaceFrom(done, p1 + pat + p2 + pat + p3, pat, rep) ==
      p1 + Substitute(rep, pat, done + p1, p2 + pat + p3) + p2 + Substitute(rep, pat, done + p1 + pat + p2, p3) + p3
  {
    var d1 := done + p1;
    var d2 := d1 + pat;
    var d3 := d2 + p2;
    var d4 := d3 + pat;
    var s1 := Substitute(rep, pat, d1, p2 + (pat + (p3 + [])));
    var s2 := Substitute(rep, pat, d3, p3 + []);
    assert p2 + (pat + (p3 + [])) == p2 + pat + p3 && p3 + [] == p3;
    calc {
      ReplaceFrom(done, p1 + pat + p2 + pat + p3, pat, rep);
      { assert p1 + pat + p2 + pat + p3 == p1 + (pat + (p2 + (pat + (p3 + [])))); }
      ReplaceFrom(done, p1 + (pat + (p2 + (pat + (p3 + [])))), pat, rep);
      { ReplaceAllSkips(done, p1, pat + (p2 + (pat + (p3 + []))), pat, rep); }
      p1 + ReplaceFrom(d1, pat + (p2 + (pat + (p3 + []))), pat, rep);
      { ReplaceAllHit(d1, p2 + (pat + (p3 + [])), pat, rep); }
      p1 + (s1 + ReplaceFrom(d2, p2 + (pat + (p3 + [])), pat, rep));
      { ReplaceAllSkips(d2, p2, pat + (p3 + []), pat, rep); }
      p1 + (s1 + (p2 + ReplaceFrom(d3, pat + (p3 + []), pat, rep)));
      { ReplaceAllHit(d3, p3 + [], pat, rep); }
      p1 + (s1 + (p2 + (s2 + ReplaceFrom(d4, p3 + [], pat, rep))));
      { ReplaceAllSkips(d4, p3, [], pat, rep); }
      p1 + (s1 + (p2 + (s2 + (p3 + ReplaceFrom(d4 + p3, [], pat, rep)))));
      { assert ReplaceFrom(d4 + p3, [], pat, rep) == []; }
      p1 + s1 + p2 + s2 + p3;
    }
  }

  /** A template that opens with a character the pattern starts with, but
      not a whole occurrence, and then holds two occurrences. */
  lemma FillOpened(c: char, p1: string, p2: string, p3: string, pat: string, rep: string)
    requires |pat| >= 2 && pat[0] == c && p1 != [] && p1[0] != pat[1]
    requires pat[0] !in p1 && pat[0] !in p2 && pat[0] !in p3
    ensures ReplaceAll([c] + p1 + pat + p2 + pat + p3, pat, rep) ==
      [c] + p1 + Substitute(rep, pat, [c] + p1, p2 + pat + p3) + p2
      + Substitute(rep, pat, [c] + p1 + pat + p2, p3) + p3
  {
    var body := p1 + pat + p2 + pat + p3;
    var s1 := Substitute(rep, pat, [c] + p1, p2 + pat + p3);
    var s2 := Substitute(rep, pat, [c] + p1 + pat + p2, p3);
    calc {
      ReplaceAll([c] + p1 + pat + p2 + pat + p3, pat, rep);
      { assert [c] + p1 + pat + p2 + pat + p3 == [c] + body; }
      ReplaceFrom([], [c] + body, pat, rep);
      { assert body[0] == p1[0]; ReplaceAllMiss([], c, body, pat, rep); assert [] + [c] == [c]; }
      [c] + ReplaceFrom([c], body, pat, rep);
      { FillTwice([c], p1, p2, p3, pat, rep); }
      [c] + (p1 + s1 + p2 + s2 + p3);
      { AppendAssoc([c], p1 + s1 + p2 + s2, p3); }
      [c] + p1 + s1 + p2 + s2 + p3;
    }
  }

  /** Both placeholders are replaced by the id as `replaceAll` expands it:
      a `$&`, `$$`, `` $` `` or `$'` in the id is expanded, with the template
      text before and after that placeholder. */
  lemma TooltipClientStateExpansion(id: string)
    ensures TooltipClientState(id) ==
      "{" + TargetKey
      + Substitute(id, IdPlaceholder, "{" + TargetKey, ValueKey + IdPlaceholder + TemplateEnd)
      + ValueKey
      + Substitute(id, IdPlaceholder, "{" + TargetKey + IdPlaceholder + ValueKey, TemplateEnd)
      + TemplateEnd
  {
    assert ClientStateTemplate == ['{'] + TargetKey + IdPlaceholder + ValueKey + IdPlaceholder + TemplateEnd;
    FillOpened('{', TargetKey, ValueKey, TemplateEnd, IdPlaceholder, id);
  }

  /** The id `$&` stands for the match itself, so the template comes back
      with its placeholders in place. */
  lemma MatchPatternIdKeepsTemplate()
    ensures TooltipClientState("$&") == ClientStateTemplate
  {
    TooltipClientStateExpansion("$&");
    var id := "$&";
    assert id[2..] == [];
    assert forall b, a :: Substitute(id, IdPlaceholder, b, a) == IdPlaceholder + Substitute([], IdPlaceholder, b, a);
  }

  /** An id without a dollar, such as every candidate id, is inserted as it
      is: the client state is `{"AjaxTargetControl":"<id>","Value":"<id>"}`. */
  lemma TooltipClientStateShape(id: string)
    requires '$' !in id
    ensures TooltipClientState(id) == "{" + TargetKey + id + ValueKey + id + TemplateEnd
  {
    TooltipClientStateExpansion(id);
    SubstituteLiteral(id, IdPlaceholder, "{" + TargetKey, ValueKey + IdPlaceholder + TemplateEnd);
    SubstituteLiteral(id, IdPlaceholder, "{" + TargetKey + IdPlaceholder + ValueKey, TemplateEnd);
  }

  // ---------------------------------------------------------------------------
  // Candidate ids: body.match(/\d+?;[z]/g), de-duplicated and sorted
  // ---------------------------------------------------------------------------

  predicate IsDigit(c: char) {
    '0' <= c <= '9'
  }

  /** The shape of a candidate id: one or more ASCII digits, then `;z`. */
  predicate IsId(m: string) {
    |m| >= 3 && m[|m| - 2] == ';' && m[|m| - 1] == 'z' &&
    forall k :: 0 <= k < |m| - 2 ==> IsDigit(m[k])
  }

  /** The lazy `\d+?;z` once `s[..j]` has matched digits: try `;z` first, and
      take one more digit only when that fails. */
  function LazyEnd(s: string, j: nat): (r: Option<nat>)
    requires 1 <= j <= |s| && forall k :: 0 <= k < j ==> IsDigit(s[k])
    ensures r.Some? ==> j + 2 <= r.value <= |s| && IsId(s[..r.value])
    decreases |s| - j
  {
    if j + 2 <= |s| && s[j] == ';' && s[j + 1] == 'z' then Some(j + 2)
    else if j < |s| && IsDigit(s[j]) then LazyEnd(s, j + 1)
    else None
  }

  /** The length of the match the regular expression finds at the front of `s`. */
  function MatchLength(s: string): (r: Option<nat>)
    ensures r.Some? ==> 3 <= r.value <= |s| && IsId(s[..r.value])
  {
    if s != [] && IsDigit(s[0]) then LazyEnd(s, 1) else None
  }

  /** The global match: left to right, non-overlapping; after a match the scan
      resumes where it ended, otherwise one character further. */
  function Scan(s: string): (r: seq<string>)
    ensures forall i :: 0 <= i < |r| ==> IsId(r[i])
    decreases |s|
  {
    if s == [] then []
    else match MatchLength(s)
      case Some(n) => [s[..n]] + Scan(s[n..])
      case None => Scan(s[1..])
  }

  /** The candidate ids `prepare` returns: `Array.from(new Set(matches)).sort()`. */
  function CandidateIds(body: string): (r: seq<string>)
    ensures StrictlyAscending(r)
    ensures Elems(r) == Elems(Scan(body))
    ensures forall i :: 0 <= i < |r| ==> IsId(r[i])
  {
    var ids := SortedUnique(Scan(body));
    assert forall i :: 0 <= i < |ids| ==> IsId(ids[i]) by {
      forall i | 0 <= i < |ids| ensures IsId(ids[i]) {
        assert ids[i] in Elems(Scan(body));
      }
    }
    ids
  }

  /** Candidate ids hold no dollar, so their tooltip client state is the
      template with the id inserted literally. */
  lemma CandidateClientState(body: string, i: int)
    requires 0 <= i < |CandidateIds(body)|
    ensures var id := CandidateIds(body)[i];
      TooltipClientState(id) == "{" + TargetKey + id + ValueKey + id + TemplateEnd
  {
    var id := CandidateIds(body)[i];
    assert IsId(id);
    assert '$' !in id;
    TooltipClientStateShape(id);
  }

  lemma {:induction false} LazyEndOnId(m: string, rest: string, j: nat)
    requires IsId(m) && 1 <= j <= |m| - 2
    ensures LazyEnd(m + rest, j) == Some(|m|)
    decreases |m| - j
  {
    var s := m + rest;
    assert s[..|m|] == m;
    if j < |m| - 2 {
      assert s[j] == m[j] && IsDigit(m[j]);
      LazyEndOnId(m, rest, j + 1);
    } else {
      assert s[j] == ';' && s[j + 1] == 'z';
    }
  }

  /** An id at the front of the body is matched whole. */
  lemma ScanId(m: string, rest: string)
    requires IsId(m)
    ensures Scan(m + rest) == [m] + Scan(rest)
  {
    var s := m + rest;
    assert s[0] == m[0] && IsDigit(m[0]);
    LazyEndOnId(m, rest, 1);
    assert s[..|m|] == m && s[|m|..] == rest;
  }

  /** Ids separated by spaces are found again, in order. */
  lemma {:induction false} ScanJoinedIds(ids: seq<string>)
    requires |ids| >= 1 && forall i :: 0 <= i < |ids| ==> IsId(ids[i])
    ensures Scan(Join(ids, ' ')) == ids
  {
    if |ids| == 1 {
      ScanId(ids[0], []);
      assert ids[0] + [] == ids[0];
    } else {
      var tail := Join(ids[1..], ' ');
      assert Join(ids, ' ') == ids[0] + ([' '] + tail);
      ScanId(ids[0], [' '] + tail);
      assert ([' '] + tail)[1..] == tail;
      ScanJoinedIds(ids[1..]);
      assert [ids[0]] + ids[1..] == ids;
    }
  }

  /** A body listing ids (in any order, with repetitions) yields each of them
      once, in ascending order; the outcome depends only on which ids occur. */
  lemma CandidateIdsOfListing(ids: seq<string>, other: seq<string>)
    requires |ids| >= 1 && forall i :: 0 <= i < |ids| ==> IsId(ids[i])
    requires |other| >= 1 && forall i :: 0 <= i < |other| ==> IsId(other[i])
    requires Elems(ids) == Elems(other)
    ensures CandidateIds(Join(ids, ' ')) == SortedUnique(ids)
    ensures CandidateIds(Join(ids, ' ')) == CandidateIds(Join(other, ' '))
  {
    ScanJoinedIds(ids);
    ScanJoinedIds(other);
    SortedUniqueCanonical(ids, other);
  }

  // ---------------------------------------------------------------------------
  // The date decision of `prepare`
  // ---------------------------------------------------------------------------

  /** `DateTime.now().toISODate() !== this.options.setDate?.toISODate()`:
      calendar days are compared, not instants; no date counts as different. */
  predicate ShouldUpdateDate(now: int, setDate: Option<int>) {
    setDate.None? || IsoDay(now) != IsoDay(setDate.value)
  }

  /** Two instants of the same calendar day never trigger the date change. */
  lemma SameDayKeepsPage(now: int, setDate: int)
    requires IsoDay(now) * DayMs <= setDate < IsoDay(now) * DayMs + DayMs
    ensures !ShouldUpdateDate(now, Some(setDate))
  {
  }

  // ---------------------------------------------------------------------------
  // Chunks: lodash.chunk(elements, throttling?.chunkSize ?? elements.length)
  // ---------------------------------------------------------------------------

  datatype Throttling = Throttling(delayPerChunk: int, chunkSize: int)

  function ChunkSize(throttling: Option<Throttling>, n: nat): int {
    if throttling.Some? then throttling.value.chunkSize else n
  }

  /** `lodash.chunk(xs, size)`: consecutive pieces of `size` elements, the last
      possibly shorter; no pieces for an empty list or a size below 1. */
  function Chunk<T>(xs: seq<T>, size: int): (r: seq<seq<T>>)
    ensures size < 1 || xs == [] ==> r == []
    ensures forall i :: 0 <= i < |r| ==> 1 <= |r[i]| <= size
    ensures forall i :: 0 <= i < |r| - 1 ==> |r[i]| == size
    decreases |xs|
  {
    if size < 1 || xs == [] then []
    else if |xs| <= size then [xs]
    else [xs[..size]] + Chunk(xs[size..], size)
  }

  function Flatten<T>(xss: seq<seq<T>>): seq<T> {
    if xss == [] then [] else xss[0] + Flatten(xss[1..])
  }

  lemma {:induction false} FlattenSnoc<T>(xss: seq<seq<T>>, x: seq<T>)
    ensures Flatten(xss + [x]) == Flatten(xss) + x
  {
    if xss == [] {
      assert [] + [x] == [x];
      assert Flatten([x]) == x + Flatten([x][1..]);
    } else {
      assert (xss + [x])[1..] == xss[1..] + [x];
      FlattenSnoc(xss[1..], x);
    }
  }

  /** The chunks concatenate back to the input, in order. */
  lemma {:induction false} ChunksCoverInput<T>(xs: seq<T>, size: int)
    requires size >= 1
    ensures Flatten(Chunk(xs, size)) == xs
    decreases |xs|
  {
    if xs != [] && |xs| > size {
      ChunksCoverInput(xs[size..], size);
      assert [xs[..size]] + Chunk(xs[size..], size) == Chunk(xs, size);
      assert xs[..size] + xs[size..] == xs;
    } else if xs != [] {
      assert Flatten([xs]) == xs + Flatten([xs][1..]);
    }
  }

  /** The ids `scrap` gets to: all of them when a chunk size of at least one
      is configured or none is (one chunk), none for a configured size below one. */
  lemma ScheduledIds(xs: seq<string>, throttling: Option<Throttling>)
    ensures ChunkSize(throttling, |xs|) >= 1 || xs == [] ==>
      Flatten(Chunk(xs, ChunkSize(throttling, |xs|))) == xs
    ensures ChunkSize(throttling, |xs|) < 1 ==> Flatten(Chunk(xs, ChunkSize(throttling, |xs|))) == []
    ensures throttling.None? && xs != [] ==> Chunk(xs, ChunkSize(throttling, |xs|)) == [xs]
  {
    if ChunkSize(throttling, |xs|) >= 1 {
      ChunksCoverInput(xs, ChunkSize(throttling, |xs|));
    }
  }

  // ---------------------------------------------------------------------------
  // Requests and replies
  // ---------------------------------------------------------------------------

  /** A reply of the origin server. `Delivered` is a response the HTTP client
      resolves with, which by its default (`throwHttpErrors`) has a 2xx status;
      `Rejected` is a request that fails, on the network or with any other
      status. */
  datatype Reply = Delivered(status: int, body: string) | Rejected(message: string)

  /** The requests sent to the origin, with the postback form fields they carry. */
  datatype Request =
    | InitialGet
    | DateChange(isoDay: int, states: map<string, string>)
    | Detail(htmlId: string, clientState: string, states: map<string, string>)

  /** The `.value` of each hidden input the full-document response holds;
      None where `querySelector` finds no such input. */
  datatype DomInputs = DomInputs(
    viewState: Option<string>,
    eventValidation: Option<string>,
    viewStateGenerator: Option<string>)

  const NullValueError: string := "Cannot read properties of null (reading 'value')"
  const NoDateError: string := "Cannot read properties of undefined (reading 'toISODate')"

  /** The FETCH events the detail fetches of `ids` produce: one per delivered
      reply, carrying field 7 of its body; a rejected fetch produces none. */
  function Harvest(ids: seq<string>, network: string -> Reply): (r: seq<FetchEvent>)
    ensures |r| <= |ids|
  {
    if ids == [] then []
    else FetchOf(ids[0], network(ids[0])) + Harvest(ids[1..], network)
  }

  /** The event one detail fetch produces: one for a delivered reply, none for
      a rejected one. */
  function FetchOf(id: string, reply: Reply): (r: seq<FetchEvent>)
    ensures |r| <= 1
    ensures r != [] <==> reply.Delivered?
    ensures r != [] ==> r[0] == FetchEvent(id, HtmlFromResponse(reply.body))
  {
    match reply
    case Delivered(_, body) => [FetchEvent(id, HtmlFromResponse(body))]
    case Rejected(_) => []
  }

  /** Every FETCH event belongs to an id whose fetch was delivered, and carries
      field 7 of that reply. */
  lemma {:induction false} HarvestSound(ids: seq<string>, network: string -> Reply, e: FetchEvent)
    requires e in Harvest(ids, network)
    ensures e.htmlId in ids && network(e.htmlId).Delivered?
    ensures e.body == HtmlFromResponse(network(e.htmlId).body)
  {
    if e !in FetchOf(ids[0], network(ids[0])) {
      HarvestSound(ids[1..], network, e);
    }
  }

  /** Every id whose fetch is delivered has its FETCH event. */
  lemma {:induction false} HarvestCoversDelivered(ids: seq<string>, network: string -> Reply, id: string)
    requires id in ids && network(id).Delivered?
    ensures FetchEvent(id, HtmlFromResponse(network(id).body)) in Harvest(ids, network)
  {
    if ids[0] != id {
      HarvestCoversDelivered(ids[1..], network, id);
    } else {
      assert FetchOf(id, network(id))[0] in Harvest(ids, network);
    }
  }

  lemma {:induction false} HarvestAppend(a: seq<string>, b: seq<string>, network: string -> Reply)
    ensures Harvest(a + b, network) == Harvest(a, network) + Harvest(b, network)
  {
    if a != [] {
      var head := FetchOf(a[0], network(a[0]));
      assert (a + b)[0] == a[0] && (a + b)[1..] == a[1..] + b;
      calc {
        Harvest(a + b, network);
        head + Harvest(a[1..] + b, network);
        { HarvestAppend(a[1..], b, network); }
        head + (Harvest(a[1..], network) + Harvest(b, network));
        { AppendAssoc(head, Harvest(a[1..], network), Harvest(b, network)); }
        Harvest(a, network) + Harvest(b, network);
      }
    } else {
      assert a + b == b;
    }
  }

  /** What fetching one more batch of ids appends to the emitted events, to
      their payloads and to the sent requests. */
  lemma BatchStep(events: seq<FetchEvent>, requests: seq<Request>, done: seq<string>, batch: seq<string>,
                  network: string -> Reply, states: map<string, string>)
    ensures events + Harvest(done + batch, network) == events + Harvest(done, network) + Harvest(batch, network)
    ensures Bodies(Harvest(done + batch, network)) == Bodies(Harvest(done, network)) + Bodies(Harvest(batch, network))
    ensures requests + DetailRequests(done + batch, states) == requests + DetailRequests(done, states) + DetailRequests(batch, states)
  {
    HarvestAppend(done, batch, network);
    BodiesAppend(Harvest(done, network), Harvest(batch, network));
    DetailRequestsAppend(done, batch, states);
    AppendAssoc(events, Harvest(done, network), Harvest(batch, network));
    AppendAssoc(requests, DetailRequests(done, states), DetailRequests(batch, states));
  }

  /** `BatchStep` for one more id of a list: the logs up to `ids[..j]`
      extended by the id `ids[j]`. */
  lemma PrefixStep(events: seq<FetchEvent>, requests: seq<Request>, ids: seq<string>, j: int,
                   network: string -> Reply, states: map<string, string>)
    requires 0 <= j < |ids|
    ensures events + Harvest(ids[..j], network) + Harvest([ids[j]], network) == events + Harvest(ids[..j + 1], network)
    ensures Bodies(Harvest(ids[..j], network)) + Bodies(Harvest([ids[j]], network)) == Bodies(Harvest(ids[..j + 1], network))
    ensures requests + DetailRequests(ids[..j], states) + DetailRequests([ids[j]], states)
      == requests + DetailRequests(ids[..j + 1], states)
  {
    assert ids[..j + 1] == ids[..j] + [ids[j]];
    BatchStep(events, requests, ids[..j], [ids[j]], network, states);
  }

  /** The detail requests for `ids`, in order. */
  function DetailRequests(ids: seq<string>, states: map<string, string>): seq<Request> {
    if ids == [] then [] else [Detail(ids[0], TooltipClientState(ids[0]), states)] + DetailRequests(ids[1..], states)
  }

  /** One detail request per id, in the order of the ids. */
  lemma {:induction false} DetailRequestsAt(ids: seq<string>, states: map<string, string>)
    ensures |DetailRequests(ids, states)| == |ids|
    ensures forall i :: 0 <= i < |ids| ==>
      DetailRequests(ids, states)[i] == Detail(ids[i], TooltipClientState(ids[i]), states)
  {
    if ids != [] {
      DetailRequestsAt(ids[1..], states);
      var r := DetailRequests(ids, states);
      forall i | 1 <= i < |ids|
        ensures r[i] == Detail(ids[i], TooltipClientState(ids[i]), states)
      {
        assert r[i] == DetailRequests(ids[1..], states)[i - 1];
      }
    }
  }

  lemma {:induction false} DetailRequestsAppend(a: seq<string>, b: seq<string>, states: map<string, string>)
    ensures DetailRequests(a + b, states) == DetailRequests(a, states) + DetailRequests(b, states)
  {
    if a == [] {
      assert a + b == b;
    } else {
      var head := [Detail(a[0], TooltipClientState(a[0]), states)];
      assert (a + b)[0] == a[0] && (a + b)[1..] == a[1..] + b;
      calc {
        DetailRequests(a + b, states);
        head + DetailRequests(a[1..] + b, states);
        { DetailRequestsAppend(a[1..], b, states); }
        head + (DetailRequests(a[1..], states) + DetailRequests(b, states));
        { AppendAssoc(head, DetailRequests(a[1..], states), DetailRequests(b, states)); }
        DetailRequests(a, states) + DetailRequests(b, states);
      }
    }
  }

  /** The scraper object: its options and throttling, the postback tokens it
      holds, the requests it has sent and the FETCH events it has emitted. */
  class StealerScrapper {
    const isPrivateEndpoint: bool
    const throttling: Option<Throttling>
    var options: Scrapper.ScrapperOptions
    var baseStates: BaseStates
    var sent: seq<Request>
    var fetched: seq<FetchEvent>

    constructor (options: Scrapper.ScrapperOptions, throttling: Option<Throttling>)
      ensures !isPrivateEndpoint
      ensures this.options == options && this.throttling == throttling
      ensures baseStates == NoStates && sent == [] && fetched == []
    {
      isPrivateEndpoint := false;
      this.options := options;
      this.throttling := throttling;
      baseStates := NoStates;
      sent := [];
      fetched := [];
    }

    /** `updateBaseStates`: the status must be 200; then the three inputs are
        read one after the other, so a missing input throws after the tokens
        before it have been written. */
    method UpdateBaseStates(status: int, dom: DomInputs) returns (o: Outcome)
      modifies this`baseStates
      ensures o.Pass? <==> status == 200 && dom.viewState.Some? && dom.eventValidation.Some? && dom.viewStateGenerator.Some?
      ensures status != 200 ==> o == Fail("Invalid status code!") && baseStates == old(baseStates)
      ensures status == 200 && o.Fail? ==> o == Fail(NullValueError)
      ensures status == 200 ==>
        baseStates ==
          if dom.viewState.None? then old(baseStates)
          else if dom.eventValidation.None? then old(baseStates).(viewState := dom.viewState)
          else if dom.viewStateGenerator.None? then
            old(baseStates).(viewState := dom.viewState, eventValidation := dom.eventValidation)
          else BaseStates(dom.viewState, dom.eventValidation, dom.viewStateGenerator)
    {
      if status != 200 {
        return Fail("Invalid status code!");
      }
      if dom.viewState.None? {
        return Fail(NullValueError);
      }
      baseStates := baseStates.(viewState := dom.viewState);
      if dom.eventValidation.None? {
        return Fail(NullValueError);
      }
      baseStates := baseStates.(eventValidation := dom.eventValidation);
      if dom.viewStateGenerator.None? {
        return Fail(NullValueError);
      }
      baseStates := baseStates.(viewStateGenerator := dom.viewStateGenerator);
      o := Pass;
    }

    /** `updateBaseStatesFromDelta`: the status must be 200; then all three
        tokens are overwritten from the body, never only some of them. */
    method UpdateBaseStatesFromDelta(status: int, body: string) returns (o: Outcome)
      modifies this`baseStates
      ensures status != 200 ==> o == Fail("Invalid status code!") && baseStates == old(baseStates)
      ensures status == 200 ==> o == Pass && baseStates == DeltaStates(body)
    {
      if status != 200 {
        return Fail("Invalid status code!");
      }
      baseStates := DeltaStates(body);
      o := Pass;
    }

    /** `updateDate`: the date-change POST for one ISO day; it is not sent
        unless the tokens are complete. Returns the response body. */
    method UpdateDate(isoDay: int, reply: Reply) returns (r: Result<string>)
      modifies this`baseStates, this`sent
      ensures !Complete(old(baseStates)) ==>
        r == Failure("Missing states!") && sent == old(sent) && baseStates == old(baseStates)
      ensures Complete(old(baseStates)) ==>
        && sent == old(sent) + [DateChange(isoDay, FormParts(old(baseStates)).value)]
        && (reply.Rejected? ==> r == Failure(reply.message) && baseStates == old(baseStates))
        && (reply.Delivered? && reply.status != 200 ==>
              r == Failure("Invalid status code!") && baseStates == old(baseStates))
        && (reply.Delivered? && reply.status == 200 ==>
              r == Success(reply.body) && baseStates == DeltaStates(reply.body))
    {
      var parts := FormParts(baseStates);
      if parts.Failure? {
        return Failure(parts.error);
      }
      sent := sent + [DateChange(isoDay, parts.value)];
      if reply.Rejected? {
        return Failure(reply.message);
      }
      var o := UpdateBaseStatesFromDelta(reply.status, reply.body);
      if o.Fail? {
        return Failure(o.error);
      }
      r := Success(reply.body);
    }

    /** `getDataOfId`: the detail POST for one id, carrying the tokens and the
        tooltip client state; it is not sent unless the tokens are complete. */
    method GetDataOfId(id: string, reply: Reply) returns (r: Result<string>)
      modifies this`sent
      ensures !Complete(baseStates) ==> r == Failure("Missing states!") && sent == old(sent)
      ensures Complete(baseStates) ==>
        && sent == old(sent) + [Detail(id, TooltipClientState(id), FormParts(baseStates).value)]
        && r == match reply
             case Delivered(_, body) => Success(body)
             case Rejected(m) => Failure(m)
    {
      var parts := FormParts(baseStates);
      if parts.Failure? {
        return Failure(parts.error);
      }
      sent := sent + [Detail(id, TooltipClientState(id), parts.value)];
      r := match reply
        case Delivered(_, body) => Success(body)
        case Rejected(m) => Failure(m);
    }

    /** `prepare`: the initial GET always comes first and its tokens are
        applied; the date-change POST follows only when the target date is not
        today, and its body, otherwise the GET's, is scanned for ids. */
    method Prepare(now: int, initial: Reply, dom: DomInputs, dateReply: Reply) returns (r: Result<seq<string>>)
      modifies this`baseStates, this`sent
      ensures |sent| >= |old(sent)| + 1 && sent[..|old(sent)| + 1] == old(sent) + [InitialGet]
      // the GET failed: nothing else happens
      ensures initial.Rejected? ==>
        r == Failure(initial.message) && sent == old(sent) + [InitialGet] && baseStates == old(baseStates)
      // its tokens could not be applied: `updateBaseStates` throws, nothing else is sent
      ensures initial.Delivered? && initial.status != 200 ==>
        r == Failure("Invalid status code!") && sent == old(sent) + [InitialGet] && baseStates == old(baseStates)
      ensures initial.Delivered? && initial.status == 200 && !(dom.viewState.Some? && dom.eventValidation.Some? && dom.viewStateGenerator.Some?) ==>
        && r == Failure(NullValueError) && sent == old(sent) + [InitialGet]
        // the inputs read before the missing one were written
        && baseStates ==
             if dom.viewState.None? then old(baseStates)
             else if dom.eventValidation.None? then old(baseStates).(viewState := dom.viewState)
             else old(baseStates).(viewState := dom.viewState, eventValidation := dom.eventValidation)
      ensures initial.Delivered? && initial.status == 200 && dom.viewState.Some? && dom.eventValidation.Some? && dom.viewStateGenerator.Some? ==>
        var got := BaseStates(dom.viewState, dom.eventValidation, dom.viewStateGenerator);
        // the page already shows the target day: no POST, the GET body is scanned
        && (!ShouldUpdateDate(now, options.setDate) ==>
              r == Success(CandidateIds(initial.body)) && sent == old(sent) + [InitialGet] && baseStates == got)
        // no target date: `setDate!` throws before anything is sent
        && (options.setDate.None? ==>
              r == Failure(NoDateError) && sent == old(sent) + [InitialGet] && baseStates == got)
        // another day, but the GET's tokens are incomplete: the POST is refused
        && (ShouldUpdateDate(now, options.setDate) && options.setDate.Some? && !Complete(got) ==>
              r == Failure("Missing states!") && sent == old(sent) + [InitialGet] && baseStates == got)
        // another day: one date-change POST, whose body is scanned when it is answered with 200
        && (ShouldUpdateDate(now, options.setDate) && options.setDate.Some? && Complete(got) ==>
              && sent == old(sent) + [InitialGet, DateChange(IsoDay(options.setDate.value), FormParts(got).value)]
              && (dateReply.Rejected? ==> r == Failure(dateReply.message) && baseStates == got)
              && (dateReply.Delivered? && dateReply.status != 200 ==>
                    r == Failure("Invalid status code!") && baseStates == got)
              && (dateReply.Delivered? && dateReply.status == 200 ==>
                    r == Success(CandidateIds(dateReply.body)) && baseStates == DeltaStates(dateReply.body)))
      ensures r.Success? ==> StrictlyAscending(r.value) && forall i :: 0 <= i < |r.value| ==> IsId(r.value[i])
    {
      sent := sent + [InitialGet];
      if initial.Rejected? {
        return Failure(initial.message);
      }
      var applied := UpdateBaseStates(initial.status, dom);
      if applied.Fail? {
        return Failure(applied.error);
      }
      var body := initial.body;
      if ShouldUpdateDate(now, options.setDate) {
        if options.setDate.None? {
          return Failure(NoDateError);
        }
        var changed := UpdateDate(IsoDay(options.setDate.value), dateReply);
        if changed.Failure? {
          return Failure(changed.error);
        }
        body := changed.value;
      }
      r := Success(CandidateIds(body));
    }

    /** The promise chain `scrap` builds for one id: on a delivered reply,
        one FETCH event with field 7 of the body, and that payload; on a failure
        (tokens missing, request rejected) nothing but a log line. */
    method FetchId(id: string, network: string -> Reply) returns (payload: seq<Option<string>>)
      modifies this`sent, this`fetched
      ensures Complete(baseStates) ==>
        && fetched == old(fetched) + Harvest([id], network)
        && payload == Bodies(Harvest([id], network))
        && sent == old(sent) + DetailRequests([id], FormParts(baseStates).value)
      ensures !Complete(baseStates) ==> payload == [] && fetched == old(fetched) && sent == old(sent)
    {
      var got := GetDataOfId(id, network(id));
      payload := [];
      if got.Success? {
        var html := HtmlFromResponse(got.value);
        fetched := fetched + [FetchEvent(id, html)];
        payload := [html];
      }
    }

    /** One chunk of `scrap`: each id of the chunk is fetched in turn. */
    method FetchChunk(chunk: seq<string>, network: string -> Reply) returns (payload: seq<Option<string>>)
      modifies this`sent, this`fetched
      ensures Complete(baseStates) ==>
        && fetched == old(fetched) + Harvest(chunk, network)
        && payload == Bodies(Harvest(chunk, network))
        && sent == old(sent) + DetailRequests(chunk, FormParts(baseStates).value)
      ensures !Complete(baseStates) ==> payload == [] && fetched == old(fetched) && sent == old(sent)
    {
      ghost var ok := Complete(baseStates);
      ghost var parts := if ok then FormParts(baseStates).value else map[];
      ghost var fetched0, sent0 := fetched, sent;
      payload := [];
      var j := 0;
      while j < |chunk|
        invariant 0 <= j <= |chunk|
        invariant ok ==>
          && fetched == fetched0 + Harvest(chunk[..j], network)
          && payload == Bodies(Harvest(chunk[..j], network))
          && sent == sent0 + DetailRequests(chunk[..j], parts)
        invariant !ok ==> payload == [] && fetched == fetched0 && sent == sent0
      {
        var one := FetchId(chunk[j], network);
        payload := payload + one;
        if ok {
          PrefixStep(fetched0, sent0, chunk, j, network, parts);
        }
        j := j + 1;
      }
      assert chunk[..|chunk|] == chunk;
    }

    /** `scrap`: the ids are fetched chunk by chunk, in order. Every delivered
        reply emits one FETCH event with field 7 of its body and adds that
        payload to the result; a failed fetch is only logged. */
    method Scrap(elements: seq<string>, network: string -> Reply) returns (responses: seq<Option<string>>)
      modifies this`sent, this`fetched
      ensures var ids := Flatten(Chunk(elements, ChunkSize(throttling, |elements|)));
        if Complete(baseStates) then
          && fetched == old(fetched) + Harvest(ids, network)
          && responses == Bodies(Harvest(ids, network))
          && sent == old(sent) + DetailRequests(ids, FormParts(baseStates).value)
        else
          responses == [] && fetched == old(fetched) && sent == old(sent)
    {
      var chunks := Chunk(elements, ChunkSize(throttling, |elements|));
      responses := FetchChunks(chunks, network);
    }

    /** The chunk loop of `scrap`: the chunks are fetched one after another. */
    method FetchChunks(chunks: seq<seq<string>>, network: string -> Reply) returns (responses: seq<Option<string>>)
      modifies this`sent, this`fetched
      ensures Complete(baseStates) ==>
        && fetched == old(fetched) + Harvest(Flatten(chunks), network)
        && responses == Bodies(Harvest(Flatten(chunks), network))
        && sent == old(sent) + DetailRequests(Flatten(chunks), FormParts(baseStates).value)
      ensures !Complete(baseStates) ==> responses == [] && fetched == old(fetched) && sent == old(sent)
    {
      ghost var ok := Complete(baseStates);
      ghost var parts := if ok then FormParts(baseStates).value else map[];
      responses := [];
      var i := 0;
      ghost var done: seq<string> := [];
      while i < |chunks|
        invariant 0 <= i <= |chunks|
        invariant done == Flatten(chunks[..i])
        invariant ok ==> fetched == old(fetched) + Harvest(done, network)
        invariant ok ==> responses == Bodies(Harvest(done, network))
        invariant ok ==> sent == old(sent) + DetailRequests(done, parts)
        invariant !ok ==> responses == [] && fetched == old(fetched) && sent == old(sent)
      {
        var payload := FetchChunk(chunks[i], network);
        responses := responses + payload;
        if ok {
          BatchStep(old(fetched), old(sent), done, chunks[i], network, parts);
        }
        assert chunks[..i + 1] == chunks[..i] + [chunks[i]];
        FlattenSnoc(chunks[..i], chunks[i]);
        done := done + chunks[i];
        i := i + 1;
      }
      assert chunks[..|chunks|] == chunks;
    }
  }
}
