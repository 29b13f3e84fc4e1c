# puppy-scrapy, modelled in Dafny

puppy-scrapy is a worker that scrapes the public timetable of a university
(an ASP.NET page) and passes every fetched fragment of HTML on to a backend.
This project models its sequential core and proves properties of it:

- **The HTTP-forgery scraper** (`Stealer`, src/scrapper/stealer.ts). It keeps
  the three ASP.NET postback tokens and refuses to build a follow-up request
  unless all three are set. It reads new tokens from `|`-delimited delta
  responses and takes the detail payload from field 7. It builds the tooltip
  client state for each id. It discovers candidate ids (`\d+?;z`,
  de-duplicated and sorted). It decides whether the date-change POST is
  needed. It fetches the ids chunk by chunk and emits one FETCH event per
  delivered reply.
- **The scrape lifecycle template** (`Scrapper`, src/scrapper/base.ts). It
  covers the skip/limit window of `reduce`, the credential check of `begin`,
  `clean`, and the fixed order of steps in `getData`. A strategy's `prepare`
  and `scrap` are given as capabilities.
- **The subscription-driven manager** (`Manager`, src/manager/base.ts). It
  covers the `manageScrap` day loop, the `transporter` forwarding filter, and
  the filter on subscription messages. The walk over the days is one
  function, `Manager.Walk`; both managers reuse it.
- **The socket-driven manager** (`Worker`, src/manager.ts). It covers PASSPORT
  and VISA registration, the single-flight `handleCommand` guard on
  `pendingPromise`, WORKING/READY reporting, SCHEDULE forwarding, and the
  day walk with the command's `limit` and `skip`.
- **The bridge to a sigma scraper** (`Sigma`, src/scrapper/sigma/bridge.ts).
  It covers the one-shot connection and the per-message dispatch (the
  `finished` sentinel, a data fragment, or a malformed message). `scrap`
  forwards the task and waits for the sentinel; a peer's close exits the
  process.
- **JavaScript built-ins** (`JsText`): `split` and `join` on one character,
  `indexOf`, `replaceAll`, and the default `sort` order with `new Set`
  de-duplication.
- **Shared values** (`Common`): Option and Result, the FETCH event,
  truthiness of a body, and instants on a one-day grid.

Network replies, DOM lookups, `JSON.parse`, the backend's answers and clocks
are parameters of the operations. Instants are integers in milliseconds, and
`plus({ day: 1 })` adds 86 400 000. State that the source changes in place is
held in classes: `StealerScrapper`, `ScrapperBase`, `ManagerBase`,
`WorkerManager` and `SigmaBridge`. Their fields are the source's fields plus
logs of what was sent, emitted and logged. Each socket event, and the
settling of a pending promise, is a method call.

## Model

| member | source | states |
|---|---|---|
| Stealer.FormParts | src/scrapper/stealer.ts:60-71 | fails with "Missing states!" exactly when some token is unset or empty; otherwise exactly the three keys `__VIEWSTATE`, `__EVENTVALIDATION`, `__VIEWSTATEGENERATOR`, each bound to its stored token |
| Stealer.FieldAfter | src/scrapper/stealer.ts:99-104 | the field right after the first field equal to the key; field 0 when the key is absent (indexOf is -1); undefined when the key is the last field |
| Stealer.DeltaStates | src/scrapper/stealer.ts:97-105 | all three tokens from one body, each the field after its key (no contract of its own; see the two lemmas below) |
| Stealer.DeltaFieldAfterKey | src/scrapper/stealer.ts:97-105 | for a body joined from bar-free fields, a token becomes the field right after the first occurrence of its key |
| Stealer.DeltaMissingKey | src/scrapper/stealer.ts:99-104 | a key missing from the body makes its token the body's first field |
| Stealer.HtmlFromResponse | src/scrapper/stealer.ts:107-109 | a payload exists exactly when the body has at least eight bar-separated fields, and it contains no bar |
| Stealer.PayloadIsEighthField | src/scrapper/stealer.ts:107-109 | for a body of bar-free fields, the payload is the eighth field; with fewer than eight fields it is undefined |
| Stealer.TooltipClientState | src/scrapper/stealer.ts:143-147 | the client state of a detail request is the template with `replaceAll` of `{html_id}` by the id (no contract of its own; see the lemmas below) |
| Stealer.FillTwice | src/scrapper/stealer.ts:143-147 | `replaceAll` on a text with exactly two occurrences of the pattern puts the expanded replacement in those two places, each expanded with its own text before and after, and copies everything else |
| Stealer.FillOpened | src/scrapper/stealer.ts:143-147 | the same for a template whose first character starts the pattern without starting an occurrence, as the client-state template's `{` does |
| Stealer.TooltipClientStateExpansion | src/scrapper/stealer.ts:143-147 | for every id, both placeholders become the id with its `$`-patterns expanded against the template text around that placeholder |
| Stealer.MatchPatternIdKeepsTemplate | src/scrapper/stealer.ts:143-147 | the id `$&` gives back the template unchanged, placeholders included |
| Stealer.TooltipClientStateShape | src/scrapper/stealer.ts:143-147 | for an id without a dollar the client state is `{"AjaxTargetControl":"<id>","Value":"<id>"}`: both placeholders become the id |
| Stealer.CandidateClientState | src/scrapper/stealer.ts:143-147 | every candidate id has that literal shape, since ids are digits followed by `;z` |
| Stealer.LazyEnd | src/scrapper/stealer.ts:172 | the lazy `\d+?;z` match, once it has started, ends right after the first `;z` that follows a run of digits |
| Stealer.MatchLength | src/scrapper/stealer.ts:172 | a match at the front of a body is at least three characters long and is an id (digits, then `;z`) |
| Stealer.Scan | src/scrapper/stealer.ts:172 | every match of the global scan is an id |
| Stealer.CandidateIds | src/scrapper/stealer.ts:172 | the ids come back strictly ascending (so without duplicates), each has id shape, and as a set they equal the matches of the scan |
| Stealer.ScanJoinedIds | src/scrapper/stealer.ts:172 | the scan finds ids separated by spaces again, in order |
| Stealer.CandidateIdsOfListing | src/scrapper/stealer.ts:172 | a body that lists ids yields each of them once, sorted; the result depends only on which ids occur, not on their order or repetitions |
| Stealer.ShouldUpdateDate | src/scrapper/stealer.ts:166-167 | the POST is needed when the ISO days of now and of `setDate` differ, or `setDate` is undefined (no contract of its own; see `Stealer.SameDayKeepsPage`) |
| Stealer.SameDayKeepsPage | src/scrapper/stealer.ts:166-167 | two instants on the same calendar day never trigger the date-change POST |
| Stealer.Chunk | src/scrapper/stealer.ts:191-194 | every chunk has exactly `size` elements except possibly the last, none is empty, and an empty list or a size below 1 gives no chunks |
| Stealer.ChunksCoverInput | src/scrapper/stealer.ts:191-194 | the chunks concatenate back to the input, in order |
| Stealer.ScheduledIds | src/scrapper/stealer.ts:191-194 | without throttling a non-empty list is one chunk; all ids are fetched unless a chunk size below 1 is configured, in which case none are |
| Stealer.Harvest | src/scrapper/stealer.ts:201-217 | at most one FETCH event per id |
| Stealer.FetchOf | src/scrapper/stealer.ts:203-215 | a delivered reply gives exactly one event `(id, field 7 of the body)`; a rejected fetch gives none |
| Stealer.HarvestSound | src/scrapper/stealer.ts:201-217 | every FETCH event belongs to an id whose fetch was delivered and carries field 7 of that reply |
| Stealer.HarvestCoversDelivered | src/scrapper/stealer.ts:201-217 | every id whose fetch is delivered has its FETCH event |
| Stealer.HarvestAppend | src/scrapper/stealer.ts:196-222 | the events for two lists of ids are the events of the first followed by those of the second |
| Stealer.BatchStep | src/scrapper/stealer.ts:196-222 | fetching one more chunk appends exactly its events, payloads and detail requests to the logs so far |
| Stealer.PrefixStep | src/scrapper/stealer.ts:201-217 | fetching one more id of a chunk appends exactly its events, payload and detail request |
| Stealer.DetailRequestsAt | src/scrapper/stealer.ts:133-150 | one detail request per id, in the order of the ids, each carrying the tokens and that id's client state |
| Stealer.DetailRequestsAppend | src/scrapper/stealer.ts:196-222 | the detail requests for two lists of ids are those of the first followed by those of the second |
| Stealer.StealerScrapper.constructor | src/scrapper/stealer.ts:22-58 | a public endpoint holding the given options and throttling, with no tokens yet |
| Stealer.StealerScrapper.UpdateBaseStates | src/scrapper/stealer.ts:77-91 | status 200 is required; the three inputs are then read in order, and a missing one throws after the tokens before it were written |
| Stealer.StealerScrapper.UpdateBaseStatesFromDelta | src/scrapper/stealer.ts:97-105 | status 200 is required; then all three tokens are overwritten from the same body, never only some of them |
| Stealer.StealerScrapper.UpdateDate | src/scrapper/stealer.ts:111-131 | nothing is sent unless the tokens are complete; otherwise one date-change POST carrying the form parts, whose 200 reply then supplies the new tokens |
| Stealer.StealerScrapper.GetDataOfId | src/scrapper/stealer.ts:133-158 | nothing is sent unless the tokens are complete; otherwise one detail POST with the tokens and the id's client state |
| Stealer.StealerScrapper.Prepare | src/scrapper/stealer.ts:160-184 | the initial GET is always sent first. A rejected GET, a non-200 status or a missing input fails with that error, and nothing else is sent; a missing input keeps the tokens read before it. Once its tokens are applied: on the target day the GET body's candidate ids are returned. Otherwise an absent `setDate` fails at `setDate!`, and incomplete tokens fail with "Missing states!" without a POST. Both keep the GET's tokens. Complete tokens send one date-change POST. A 200 reply returns the candidate ids of its body and takes its tokens; a rejection or another status fails and keeps the GET's tokens |
| Stealer.StealerScrapper.FetchId | src/scrapper/stealer.ts:203-215 | one id: a delivered reply emits one FETCH and yields its payload; a failure emits nothing and yields nothing (its error log is not modelled) |
| Stealer.StealerScrapper.FetchChunk | src/scrapper/stealer.ts:201-217 | the FETCH events, payloads and detail requests of a chunk are those of its ids, in order |
| Stealer.StealerScrapper.Scrap | src/scrapper/stealer.ts:186-227 | the events and the returned payloads are those of the chunked ids, one per delivered reply with the same payload, and at most one per id; with incomplete tokens nothing is sent or emitted |
| Stealer.StealerScrapper.FetchChunks | src/scrapper/stealer.ts:196-222 | the chunk loop: the logs grow chunk by chunk to the events, payloads and requests of all ids, in order |
| JsText.Split | src/scrapper/stealer.ts:99 | `split` on the bar always gives at least one field, and no field contains the separator |
| JsText.JoinSplit | src/scrapper/stealer.ts:99 | joining the fields of a split gives the body back |
| JsText.SplitNoSeparator | src/scrapper/stealer.ts:99 | a text without the separator splits into itself |
| JsText.SplitPrefix | src/scrapper/stealer.ts:99 | a separator-free field followed by the separator splits off as the first field |
| JsText.SplitJoin | src/scrapper/stealer.ts:99 | splitting a join of separator-free fields gives the fields back |
| JsText.IndexOf | src/scrapper/stealer.ts:100-104 | the first position holding the value, or -1 exactly when it is absent |
| JsText.Substitute | src/scrapper/stealer.ts:144-147 | the replacement for one match, with `$$`, `$&`, `` $` `` and `$'` expanded as `replaceAll` does for a string replacement (no contract of its own; see `JsText.SubstituteLiteral`) |
| JsText.SubstituteLiteral | src/scrapper/stealer.ts:144-147 | a replacement without a dollar is inserted literally |
| JsText.ReplaceAll | src/scrapper/stealer.ts:144-147 | `replaceAll` with a string pattern: occurrences are replaced left to right, without overlap, and the inserted text is not scanned again (no contract of its own; see the three lemmas below) |
| JsText.ReplaceAllSkips | src/scrapper/stealer.ts:144-147 | text lacking the pattern's first character is copied unchanged |
| JsText.ReplaceAllMiss | src/scrapper/stealer.ts:144-147 | a character that does not start an occurrence is copied unchanged |
| JsText.ReplaceAllHit | src/scrapper/stealer.ts:144-147 | an occurrence at the front is replaced by the expanded replacement, with the consumed text as what comes before it, and the scan resumes after it |
| JsText.LessIrreflexive | src/scrapper/stealer.ts:172 | the default sort order is irreflexive |
| JsText.LessTransitive | src/scrapper/stealer.ts:172 | the default sort order is transitive |
| JsText.LessTotal | src/scrapper/stealer.ts:172 | the default sort order is total |
| JsText.LessAsymmetric | src/scrapper/stealer.ts:172 | the default sort order is asymmetric |
| JsText.ConsAscending | src/scrapper/stealer.ts:172 | a string below every element of an ascending list can be put at its head |
| JsText.HeadBelowAll | src/scrapper/stealer.ts:172 | a string below the head of an ascending list is below all of it |
| JsText.ElemsEmpty | src/scrapper/stealer.ts:172 | a list holds no strings exactly when it is empty |
| JsText.Insert | src/scrapper/stealer.ts:172 | inserting keeps a list strictly ascending and adds exactly the one string |
| JsText.SortedUnique | src/scrapper/stealer.ts:172 | `Array.from(new Set(xs)).sort()` is strictly ascending and holds exactly the strings of `xs` |
| JsText.AscendingUnique | src/scrapper/stealer.ts:172 | two strictly ascending lists holding the same strings are equal |
| JsText.SortedUniqueCanonical | src/scrapper/stealer.ts:172 | de-duplicating and sorting ignores input order and repetitions and is idempotent |
| Scrapper.PatchedFields | src/manager/base.ts:110-114 | `overwriteConfig` sets the date, and `limit` and `skip` only when the patch carries them; credentials, timeout and `repeatFailures` are kept |
| Scrapper.SliceIndex | src/scrapper/base.ts:60-65 | a slice bound is clamped into the list |
| Scrapper.Reduce | src/scrapper/base.ts:57-66 | `slice(skip, limit ? limit + (skip ?? 0) : undefined)` (no contract of its own; see `Scrapper.ReduceWindow`) |
| Scrapper.ReduceWindow | src/scrapper/base.ts:57-66 | `reduce` keeps a contiguous piece of the input starting at `skip` (0 when undefined). A limit of 0 or undefined imposes no end. A positive limit with a non-negative or undefined `skip` gives exactly `limit` elements, or all that remain |
| Scrapper.NegativeLimitDropsTail | src/scrapper/base.ts:60-65 | a negative limit is truthy and, with no skip, drops that many elements from the end |
| Scrapper.GetDataRun | src/scrapper/base.ts:83-90 | the steps, events and result of one `getData` (no contract of its own; see `Scrapper.GetDataRunShape`) |
| Scrapper.GetDataRunShape | src/scrapper/base.ts:83-90 | `getData` runs begin, then prepare and reduce only when the strategy has a prepare, then scrap, then clean, and returns scrap's result. The credential check and `newPage` come before any step: either one failing leaves no step and no event, and a failed `newPage` rejects with its own error. `clean` is reached exactly when nothing threw before it, and is then the last step. The result is a success exactly when `clean` is reached and the page closes; a failed close rejects with its error. Without prepare, scrap is handed undefined |
| Scrapper.ScrapperBase.constructor | src/scrapper/base.ts:35-39 | holds the options, with no page yet |
| Scrapper.ScrapperBase.OverwriteConfig | src/manager/base.ts:110-114 | the options become the patched options |
| Scrapper.ScrapperBase.Begin | src/scrapper/base.ts:41-47 | a private endpoint without credentials throws "Missing credentials" and changes nothing, so no page is opened. A rejected `newPage` rejects `begin` with its error and changes nothing. Otherwise a fresh page becomes the active page |
| Scrapper.ScrapperBase.Clean | src/scrapper/base.ts:76-78 | with an active page, `clean` settles as that page's `close` does, and the page leaves the open set only when the close resolves; without one it resolves and nothing closes |
| Scrapper.ScrapperBase.GetData | src/scrapper/base.ts:83-90 | steps, FETCH events and result agree with the template above. After the credential check and `newPage` pass, the page opened by begin stays open exactly when `getData` rejects: a later step threw, or the close failed. Otherwise no page is opened and the open set is unchanged |
| Common.Bodies | src/scrapper/stealer.ts:205-211 | the payloads of FETCH events, one per event, in order |
| Common.BodiesAppend | src/scrapper/stealer.ts:205-211 | the payloads of two lists of events are those of the first followed by those of the second |
| Common.DayList | src/manager/base.ts:104-118 | the dates the day loop visits (no contract of its own; see the lemmas below) |
| Common.DayListShape | src/manager/base.ts:104-118 | the visited dates start at the start date, are exactly one day apart and all lie before `until`; none are visited when the start is not before `until` or a date is invalid |
| Common.DayListCount | src/manager/base.ts:109-118 | the number of visited dates is the number of one-day steps from the start that stay below `until` |
| Common.DayListStep | src/manager/base.ts:109-118 | consecutive visited dates strictly increase by one day |
| Common.TwoDayAssignment | src/manager/base.ts:109-118 | a range from one midnight to the midnight two days later visits exactly those two days |
| Manager.Walk | src/manager/base.ts:102-119 | the day loop of `manageScrap` as a function of the starting options, the dates and what each day meets (no contract of its own; see the lemmas below) |
| Manager.WalkShape | src/manager/base.ts:102-119 | one `getData` per visited day, in order, each with that day's date and the starting credentials. The walk resolves only when every day ran and succeeded; a rejection carries the error of the last day that ran, and every earlier day succeeded |
| Manager.WalkStops | src/manager/base.ts:109-118 | the walk stops exactly at the first rejected `getData`, with its error: every run before the last succeeded, and a resolved walk ran every day and each run succeeded |
| Manager.WalkPatches | src/manager/base.ts:109-114 | every run used the configuration carrying its own day's date |
| Manager.WalkSetsOnlyDate | src/manager/base.ts:110-114 | with the `setDate`-only patch, each day runs with the starting options and its own date, nothing else changed |
| Manager.WalkCount | src/manager/base.ts:109-118 | a completed walk ran `getData` once per one-day step from the start below `until` |
| Manager.WalkStep | src/manager/base.ts:109-118 | one turn of the loop: the start day's run, followed, when it resolves, by the walk from the next day |
| Manager.ForwardedAppend | src/manager/base.ts:124-128 | the bodies forwarded for two lists of events are those of the first followed by those of the second |
| Manager.Forwarded | src/manager/base.ts:71-83 | the bodies `transporter` sends as `processFragment` (no contract of its own; see the lemmas below) |
| Manager.ForwardedExactly | src/manager/base.ts:71-83 | a body is sent as `processFragment` exactly when some event carries it and it is non-empty |
| Manager.RelayStep | src/manager/base.ts:124-128 | forwarding one more day appends exactly its mutations and logged errors |
| Manager.UnswallowedAppend | src/manager/base.ts:84-86 | the errors logged for two lists of bodies are those of the first followed by those of the second |
| Manager.UnswallowedSilent | src/manager/base.ts:84-86 | nothing is logged exactly when no mutation fails with anything but an `ApolloError` |
| Manager.ManagerBase.constructor | src/manager/base.ts:43-55 | no listener, no subscription, nothing sent or logged |
| Manager.ManagerBase.Transporter | src/manager/base.ts:67-88 | an error is logged; a truthy body is sent as `processFragment`, whose failure is logged unless it is an `ApolloError`; an empty or absent body sends nothing |
| Manager.ManagerBase.Relay | src/manager/base.ts:124-128 | the listener applied to a day's events sends exactly the forwarded bodies, in order |
| Manager.ManagerBase.Deliver | src/manager/base.ts:124-128 | a day's events reach the transporter only when `start` has installed the listener |
| Manager.ManagerBase.ManageScrap | src/manager/base.ts:102-119 | throws "Scrapper hasn't been initalized!" without a scraper. Otherwise the scraper's runs, steps and events are those of the walk from `since` (or now) to `until`. It settles as the walk does, and the mutations are those of the walk's events |
| Manager.ManagerBase.WalkDays | src/manager/base.ts:107-118 | the `while` loop performs exactly `Manager.Walk` with the `setDate` patch |
| Manager.ManagerBase.RunDay | src/manager/base.ts:110-117 | one turn: overwrite `setDate`, run `getData`, forward its events; the days run so far grow by this day |
| Manager.ManagerBase.Start | src/manager/base.ts:134-156 | called once, before any subscription: installs the FETCH listener when a scraper is set, and subscribes |
| Manager.ManagerBase.OnSubscription | src/manager/base.ts:151-155 | a message with null `data` or null `tasksDispositions` is ignored and changes nothing; any other starts `manageScrap` with no single-flight check |
| Worker.WindowWalk | src/manager.ts:100-116 | the walk of this manager's `manageScrap`, whose patch writes the date and the command's window (no contract of its own; see `Worker.WalkKeepsWindow`) |
| Worker.WalkKeepsWindow | src/manager.ts:106-115 | each day runs with the starting options, its own date, and the command's `limit` and `skip` unchanged |
| Worker.ScheduledAppend | src/manager.ts:44-46 | the SCHEDULE messages for two lists of events are those of the first followed by those of the second |
| Worker.ScheduledAgreesWithForwarded | src/manager.ts:58-63 | this manager schedules the same bodies, in the same order, that src/manager/base.ts sends as `processFragment` |
| Worker.Scheduled | src/manager.ts:54-64 | the SCHEDULE messages `transporter` sends for a list of events (no contract of its own; see the lemmas below) |
| Worker.ScheduledSound | src/manager.ts:58-63 | every SCHEDULE names an event's id and carries its non-empty body |
| Worker.ScheduleStep | src/manager.ts:44-46 | scheduling one more day appends exactly its SCHEDULE messages |
| Worker.WorkerManager.constructor | src/manager.ts:25-47 | a fresh public scraper with the given options; nothing sent, nothing pending, no handler armed |
| Worker.WorkerManager.Transporter | src/manager.ts:54-64 | an error is logged; SCHEDULE `{htmlId, body}` is sent only for a truthy body |
| Worker.WorkerManager.Relay | src/manager.ts:44-46 | the listener applied to a day's events sends exactly their SCHEDULE messages |
| Worker.WorkerManager.UpdateState | src/manager.ts:70-73 | the state is sent on the socket |
| Worker.WorkerManager.Start | src/manager.ts:143-153 | called once, on a manager not yet started: opens the socket and arms the one-shot `connect` and `disconnect` handlers |
| Worker.WorkerManager.OnConnect | src/manager.ts:121-138 | only the first connect is handled: PASSPORT is sent and the VISA handler armed |
| Worker.WorkerManager.OnVisa | src/manager.ts:130-137 | handled once: installs the command handler, then reports READY |
| Worker.WorkerManager.OnCommand | src/manager.ts:132-134 | a command before the VISA, or after the process exited, is dropped and changes nothing; any other is handled by `handleCommand` |
| Worker.WorkerManager.HandleCommand | src/manager.ts:79-98 | WORKING is reported first, always. With a walk pending nothing else changes. Otherwise SCRAP sets `pendingPromise`, whatever its argument, null included. DISCONNECT closes the socket, which fires the `disconnect` handler armed by `start` (src/manager.ts:148-152), so the process exits and later commands are dropped |
| Worker.WorkerManager.SettlePending | src/manager.ts:89-101 | the walk runs from now; on success the guard is cleared, then READY is reported; on rejection the guard is never cleared and nothing is reported. A null or missing argument rejects with the TypeError of reading `scrapUntil`, before any day runs or anything is reported |
| Worker.WorkerManager.ManageScrap | src/manager.ts:100-116 | the walk from now to `scrapUntil`, each day with the date and the command's `limit` and `skip`; the SCHEDULE messages are those of its events |
| Worker.WorkerManager.RunDay | src/manager.ts:107-114 | one turn: overwrite the date and window, run `getData`, schedule its events; the days run so far grow by this day |
| Worker.WorkerManager.ScrapDay | src/manager.ts:108-113 | the loop body: the day's options are the old ones with the date and window written; `getData` runs on them and each of its FETCH events is relayed as a SCHEDULE |
| Worker.WorkerManager.OnDisconnect | src/manager.ts:149-152 | handled once: the process exits |
| Sigma.Classify | src/scrapper/sigma/bridge.ts:50-70 | only the sentinel finishes, and a fragment carries the id and body its message parsed to |
| Sigma.ClassifyCases | src/scrapper/sigma/bridge.ts:50-70 | a message finishes exactly when it is `finished`; it is a fragment exactly when it parses to a record with a body; anything else (a parse failure, a missing body) is malformed |
| Sigma.Fragments | src/scrapper/sigma/bridge.ts:50-70 | a stream of messages emits at most one FETCH per message, each with a body |
| Sigma.FragmentsSound | src/scrapper/sigma/bridge.ts:60-66 | every FETCH event comes from a non-sentinel message that parsed to that id and body |
| Sigma.FragmentsCount | src/scrapper/sigma/bridge.ts:50-70 | a stream of messages emits one FETCH per fragment and none for sentinels or malformed messages, so at most one per message |
| Sigma.SentinelsEmitNothing | src/scrapper/sigma/bridge.ts:54-58 | finish signals never emit a FETCH |
| Sigma.SigmaBridge.constructor | src/scrapper/sigma/bridge.ts:17-33 | the server arms the one-shot connection handler; no peer, no listener, nothing waiting |
| Sigma.SigmaBridge.OnConnection | src/scrapper/sigma/bridge.ts:42-48 | only the first connection is handled: it takes the peer and resolves `isScrapperConnected`; later peers change nothing |
| Sigma.SigmaBridge.OnMessage | src/scrapper/sigma/bridge.ts:50-70 | only the taken peer is heard. `finished` raises the finish signal, resolves every waiting scrap and emits nothing. A fragment emits exactly one FETCH `(htmlId, {body})`. A malformed message emits nothing and is logged |
| Sigma.SigmaBridge.Scrap | src/scrapper/sigma/bridge.ts:80-97 | with no peer: logs and returns at once, sending nothing and not waiting. Otherwise: sends one `{scrapUntil}` (`setDate`, or now), adds a finish listener and waits; it emits nothing itself |
| Sigma.SigmaBridge.OnClose | src/scrapper/sigma/bridge.ts:72-76 | the taken peer's close exits the process |

## Left out

- HTTP, WebSocket, GraphQL/Apollo, socket.io and puppeteer are foreign I/O. Their replies are parameters: `Reply`, `MutationReply`, the capabilities of a strategy (including how `browser.newPage()` and `page.close()` settle), the parse oracle of the bridge, and the keychain string. `process.exit` is the `exited` flag.
- `updateBaseStates` depends on JSDOM. The values of the three hidden inputs are a parameter (`DomInputs`), and a missing input is the null dereference it causes.
- JsText.Less: orders strings by Unicode scalar value (Dafny `char`), while the default `sort()` compares UTF-16 code units. The two orders differ only for characters above U+FFFF, which candidate ids (ASCII digits and `;z`) never hold.
- luxon dates are integer milliseconds, and one day is a fixed 86 400 000. Time zones (`setZone()`) and daylight-saving days are not modelled. `toISODate()` is the day number `t / 86 400 000`.
- The throttle delay (`setTimeout` and the outer `Promise.all`), `logTimeStats`, the `maxQueryRate` log, the SHA1 hash of the ids, info/debug logging, and the error log in the catch of `scrap`'s per-id chain (`errType`, `message`) feed only timing and logs.
- Stealer.StealerScrapper.FetchChunk: fetches the ids of a chunk one after another. In the source they run concurrently, so FETCH events and payloads within one chunk appear in the order the replies arrive; the model fixes the order of the ids.
- Manager.ManagerBase.OnSubscription: runs each `manageScrap` to completion. In the source a second subscription message during a walk starts an overlapping walk on the same scraper; interleavings of the two are not modelled.
- Manager.ManagerBase.OnSubscription: `void this.manageScrap(...)` leaves a rejected walk unhandled. From Node 15 on that ends the process by default; the model keeps the process running.
- Worker.WorkerManager.SettlePending: the walk runs when the pending promise settles, so commands that arrive during a walk are handled before or after it, not in the middle.
- Worker.WorkerManager.SettlePending: a rejected walk leaves the guard set and the process running. The chain stored in `pendingPromise` has no `catch`, so the rejection is unhandled. From Node 15 on, an unhandled rejection ends the process by default, and no `unhandledRejection` handler is installed. Which Node runs the worker is not part of this model, so that exit is not modelled.
- Sigma.SigmaBridge.OnMessage: the parse oracle gives a string `htmlId`. A record with a body but no `htmlId`, which the source emits with an undefined id, is not distinguished. A FETCH listener that throws (the error would be caught and logged) is not modelled.
- Sigma.SigmaBridge.Scrap: the wait is the `waiting` counter that a finish signal clears. The bridge's `getData` is not modelled, because the base class's `begin` in src/scrapper/base.ts needs a browser the bridge never supplies.
- The `listening` log of the bridge and the `Promise` object `isScrapperConnected` are not modelled; the promise's resolution is the `scrapperConnected` flag.
- The source files come from different revisions. src/scrapper/base.ts takes a browser and does not emit events, while src/scrapper/stealer.ts extends a generic base with `super(options, logger)` and `emit`. Each file is modelled as written: `StealerScrapper` is its own class with a FETCH log, and its `scrap` is not plugged into `ScrapperBase.GetData`. `overwriteConfig`, which neither file defines, is modelled as the manager's calls use it.
- `ManagerBase.scrapper` is fixed at construction. The subclasses that set it (src/manager/worker.ts, src/manager/bridge.ts, src/manager/stealer.ts) are not part of this model.
- `getData`'s result is modelled; the value a strategy resolves to is a capability, so the product of the bridge (undefined) is not modelled.
- Errors are their messages; an `Error` object's other fields and stack are not modelled.
- src/scrapper/public.ts, src/scrapper/puppeteer.ts, src/sigma/bridge.ts (an older bridge), src/keychain.ts, src/cli.ts and src/uploader.ts are not part of this model: browser automation, an obsolete revision, file persistence, CLI wiring and a deprecated upload.

## Behaviour of the code worth knowing

- `getData` has no try/finally. So `clean` is skipped after any throw, and the page stays open (`Scrapper.GetDataRunShape`, `Scrapper.ScrapperBase.GetData`). A close that rejects rejects `getData` even though the scrap succeeded.
- A SCRAP whose argument is null or missing passes the single-flight guard, and `manageScrap` throws on its first line. The stored promise rejects, so the guard stays set and every later command is refused (`Worker.WorkerManager.SettlePending`).
- src/manager.ts reports READY after the VISA and WORKING on every command, including a refused one. It reports READY again only when a walk resolves. A rejected walk reports nothing and leaves `pendingPromise` set, so while the process lives every later command is refused (see "## Left out" for the unhandled rejection). `updateState` in src/manager/base.ts does nothing.
- A rejected `getData` rejects the whole `manageScrap` walk, not only that day (`Manager.WalkStops`). Inside the stealer's `scrap`, missing tokens fail each detail fetch separately, and that is only logged.
- The stealer emits FETCH only for a delivered detail reply; a failed fetch emits nothing (`Stealer.FetchOf`).
- The bridge's `scrap` returns undefined and collects no payloads. A second connection to the bridge is simply not handled, because the handler is registered with `once` (`Sigma.SigmaBridge.OnConnection`).
- A DISCONNECT command ends the worker process through the `disconnect` handler that `start` arms (`Worker.WorkerManager.HandleCommand`).
- The detail request's client state is built with `replaceAll` and a string replacement, so `$`-patterns in an id would be expanded. Candidate ids hold no dollar, so their client state is the plain template (`Stealer.TooltipClientStateExpansion`, `Stealer.CandidateClientState`).
