/** The bridge to a sigma scraper (src/scrapper/sigma/bridge.ts): a
    WebSocket server that takes the first peer that connects, turns the text
    messages of that peer into FETCH events or finish signals, and forwards a
    scrape as one `{scrapUntil}` message, then waits for the finish signal.
    The socket events are the methods' calls; what `JSON.parse` makes of a
    message is an oracle. */
module Sigma {
  import opened Common
  import Scrapper

  /** The literal a peer sends when its task is done. */
  const FinishedSentinel: string := "finished"

  /** A peer of the WebSocket server, by identity. */
  type PeerId = nat

  /** What `JSON.parse` and the `{ htmlId, body }` destructuring make of a
      message: a throw (not JSON, or `null`), or the two fields, `body`
      possibly missing. */
  datatype Parsed = Unparsable | Record(htmlId: string, body: Option<string>)

  /** How the message handler treats a message. */
  datatype Dispatch = Finished | Data(htmlId: string, body: string) | Malformed

  /** What the bridge logs at error level. */
  datatype LogEntry = NoScrapperConnected | BadMessage(text: string)

  /** The message handler's decision: the exact sentinel finishes; any other
      text is parsed, and a record with a body is a fragment; a parse failure,
      or a missing body, is malformed: with the logger that
      src/manager/bridge.ts passes, the debug line reads the body's `length`,
      which throws before the emit. */
  function Classify(text: string, parse: string -> Parsed): (r: Dispatch)
    ensures r.Finished? <==> text == FinishedSentinel
    ensures r.Data? ==> parse(text) == Record(r.htmlId, Some(r.body))
  {
    if text == FinishedSentinel then Finished
    else
      match parse(text)
      case Unparsable => Malformed
      case Record(htmlId, body) => if body.Some? then Data(htmlId, body.value) else Malformed
  }

  /** The three outcomes split the messages exactly: the sentinel and nothing
      else finishes, a fragment is exactly a parsed record with a body, and the
      rest is malformed. */
  lemma ClassifyCases(text: string, parse: string -> Parsed)
    ensures Classify(text, parse).Finished? <==> text == FinishedSentinel
    ensures Classify(text, parse).Data? <==>
      text != FinishedSentinel && parse(text).Record? && parse(text).body.Some?
    ensures Classify(text, parse).Data? ==>
      parse(text) == Record(Classify(text, parse).htmlId, Some(Classify(text, parse).body))
    ensures Classify(text, parse).Malformed? <==>
      text != FinishedSentinel && (parse(text).Unparsable? || parse(text).body.None?)
  {
  }

  /** The FETCH events a stream of messages from the connected peer emits:
      one per fragment, in order. */
  function Fragments(texts: seq<string>, parse: string -> Parsed): (r: seq<FetchEvent>)
    ensures |r| <= |texts|
    ensures forall i :: 0 <= i < |r| ==> r[i].body.Some?
  {
    if texts == [] then []
    else
      var d := Classify(texts[0], parse);
      (if d.Data? then [FetchEvent(d.htmlId, Some(d.body))] else []) + Fragments(texts[1..], parse)
  }

  /** Every FETCH event comes from a message other than the sentinel that
      parsed to a record with exactly that id and body. */
  lemma {:induction false} FragmentsSound(texts: seq<string>, parse: string -> Parsed, e: FetchEvent)
    requires e in Fragments(texts, parse)
    ensures exists t :: t in texts && t != FinishedSentinel && parse(t) == Record(e.htmlId, e.body)
  {
    var d := Classify(texts[0], parse);
    if e in Fragments(texts[1..], parse) {
      FragmentsSound(texts[1..], parse, e);
      var t :| t in texts[1..] && t != FinishedSentinel && parse(t) == Record(e.htmlId, e.body);
      assert t in texts;
    } else {
      assert d.Data? && e == FetchEvent(d.htmlId, Some(d.body));
      ClassifyCases(texts[0], parse);
      assert texts[0] in texts;
    }
  }

  /** No message emits more than one FETCH event, and sentinels and
      malformed messages emit none: the events number exactly the fragments. */
  lemma {:induction false} FragmentsCount(texts: seq<string>, parse: string -> Parsed)
    ensures |Fragments(texts, parse)| == |DataMessages(texts, parse)|
    ensures |Fragments(texts, parse)| <= |texts|
  {
    if texts != [] {
      FragmentsCount(texts[1..], parse);
    }
  }

  /** The messages of a stream that the handler takes as fragments. */
  function DataMessages(texts: seq<string>, parse: string -> Parsed): seq<string> {
    if texts == [] then []
    else (if Classify(texts[0], parse).Data? then [texts[0]] else []) + DataMessages(texts[1..], parse)
  }

  /** A stream of sentinels emits nothing. */
  lemma {:induction false} SentinelsEmitNothing(texts: seq<string>, parse: string -> Parsed)
    requires forall i :: 0 <= i < |texts| ==> texts[i] == FinishedSentinel
    ensures Fragments(texts, parse) == []
  {
    if texts != [] {
      SentinelsEmitNothing(texts[1..], parse);
    }
  }

  /** The bridge: its options (written by the manager through the inherited
      `overwriteConfig`), whether the one-shot `connection` handler is still
      armed, the peer it took, whether `isScrapperConnected` has resolved, the
      FETCH events emitted, the error log, the `scrapUntil` of every forwarded
      scrape, the `TASK_FINISHED` listeners added, the scrapes still waiting,
      the finish signals received, and whether the process has exited. */
  class SigmaBridge {
    const isPrivateEndpoint: bool
    var options: Scrapper.ScrapperOptions
    var connectionArmed: bool
    var connected: Option<PeerId>
    var scrapperConnected: bool
    var fetched: seq<FetchEvent>
    var errors: seq<LogEntry>
    var sent: seq<int>
    var finishListeners: nat
    var waiting: nat
    var finishSignals: nat
    var exited: bool

    /** A peer is taken exactly when the `connection` handler has fired,
        which is also when `isScrapperConnected` resolves; every forwarded
        scrape added one finish listener, so there are never more waits than
        listeners, and nothing is forwarded before a peer is taken. Only
        the peer's `close` exits. */
    ghost predicate Valid()
      reads this
    {
      && !isPrivateEndpoint
      && (connected.Some? <==> !connectionArmed)
      && (scrapperConnected <==> connected.Some?)
      && finishListeners == |sent|
      && waiting <= finishListeners
      && (connected.None? ==> sent == [])
      && (exited ==> connected.Some?)
    }

    /** The constructor: the server starts and `setupConnection` arms the
        one-shot `connection` handler; `isScrapperConnected` starts waiting. */
    constructor (options: Scrapper.ScrapperOptions)
      ensures Valid()
      ensures this.options == options
      ensures connectionArmed && connected == None && !scrapperConnected
      ensures fetched == [] && errors == [] && sent == []
      ensures finishListeners == 0 && waiting == 0 && finishSignals == 0 && !exited
    {
      isPrivateEndpoint := false;
      this.options := options;
      connectionArmed := true;
      connected := None;
      scrapperConnected := false;
      fetched := [];
      errors := [];
      sent := [];
      finishListeners := 0;
      waiting := 0;
      finishSignals := 0;
      exited := false;
    }

    /** A peer connects: only the first connection reaches the handler
        (`once`), which takes the peer and resolves `isScrapperConnected`;
        any later peer is left alone. */
    method OnConnection(peer: PeerId)
      requires Valid()
      modifies this`connectionArmed, this`connected, this`scrapperConnected
      ensures Valid()
      ensures old(connectionArmed) && !exited ==>
        !connectionArmed && connected == Some(peer) && scrapperConnected
      ensures !(old(connectionArmed) && !exited) ==> unchanged(this)
    {
      if !connectionArmed || exited {
        return;
      }
      connectionArmed := false;
      connected := Some(peer);
      scrapperConnected := true;
    }

    /** A text message from `peer`: only the taken peer has a handler. The
        sentinel raises the finish signal, which resolves every waiting
        scrape; a fragment is emitted as one FETCH; a malformed message is
        logged. */
    method OnMessage(peer: PeerId, text: string, parse: string -> Parsed)
      requires Valid()
      modifies this`fetched, this`errors, this`waiting, this`finishSignals
      ensures Valid()
      ensures connected != Some(peer) || exited ==> unchanged(this)
      ensures connected == Some(peer) && !exited ==>
        && fetched == old(fetched) + Fragments([text], parse)
        && (Classify(text, parse).Finished? ==>
              waiting == 0 && finishSignals == old(finishSignals) + 1 && errors == old(errors))
        && (Classify(text, parse).Data? ==>
              waiting == old(waiting) && finishSignals == old(finishSignals) && errors == old(errors))
        && (Classify(text, parse).Malformed? ==>
              waiting == old(waiting) && finishSignals == old(finishSignals)
              && errors == old(errors) + [BadMessage(text)])
    {
      if connected != Some(peer) || exited {
        return;
      }
      if text == FinishedSentinel {
        finishSignals := finishSignals + 1;
        waiting := 0;
        return;
      }
      var parsed := parse(text);
      if parsed.Unparsable? || parsed.body.None? {
        errors := errors + [BadMessage(text)];
        return;
      }
      fetched := fetched + [FetchEvent(parsed.htmlId, parsed.body)];
    }

    /** `scrap`: without a peer it logs and returns at once; otherwise it
        sends `{scrapUntil}` (the configured `setDate`, or now), adds a finish
        listener and waits; the wait ends with the next finish signal. */
    method Scrap(now: int) returns (waits: bool)
      requires Valid()
      modifies this`errors, this`sent, this`finishListeners, this`waiting
      ensures Valid()
      ensures waits <==> old(connected).Some?
      ensures !waits ==>
        && errors == old(errors) + [NoScrapperConnected]
        && sent == old(sent) && finishListeners == old(finishListeners) && waiting == old(waiting)
      ensures waits ==>
        && sent == old(sent) + [options.setDate.GetOr(now)]
        && finishListeners == old(finishListeners) + 1
        && waiting == old(waiting) + 1
        && errors == old(errors)
    {
      if connected.None? {
        errors := errors + [NoScrapperConnected];
        return false;
      }
      sent := sent + [options.setDate.GetOr(now)];
      finishListeners := finishListeners + 1;
      waiting := waiting + 1;
      waits := true;
    }

    /** The taken peer closes its socket: the process exits. */
    method OnClose(peer: PeerId)
      requires Valid()
      modifies this`exited
      ensures Valid()
      ensures exited == (old(exited) || connected == Some(peer))
    {
      if connected == Some(peer) {
        exited := true;
      }
    }
  }
}
