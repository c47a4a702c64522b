/** The controller of appmodules/server/api/scrape/scrapeAndAddPage.js, the
    live part of `scrapeAndAddPage` (the handlers it registers on the hidden
    container window). Every Electron callback is an input event. Every
    `res.status(..).json(..)` is an entry appended to `responses`, and every
    `browserWindow.send` an entry appended to `sent`. The container window's
    result listeners are commented out in the source, so no event here leads
    to a successful response. */
module ScrapeAndAddPage {
  import opened Js

  const CreateAndLoadWebview: string := "createAndLoadWebview"
  const ErrorStatus: int := 500
  const UnresponsiveMessage: string := "BrowserWindow: unresponsive"
  const DidFailLoadMessage: string := "BrowserWindow webContents: did-fail-load"
  const CrashedMessage: string := "BrowserWindow webContents: crashed"

  /** `res.status(status).json({errorMessage: errorMessage})`. */
  datatype Response = Response(status: int, errorMessage: string)

  /** `browserWindow.send(channel, ...args)`. */
  datatype Sent = Sent(channel: string, args: seq<Value>)

  datatype Event =
    | Closed
    | Unresponsive
    | DidFinishLoad
    | DidFailLoad(errorCode: int, errorDescription: string, validatedURL: string)
    | Crashed

  /** One call of `scrapeAndAddPage`, between its events.
      - `windowAlive`: the container window exists and has not been destroyed.
      - `browserWindowRef`, `webContentsRef`: those variables are not `null`.
      - `muted`: `setAudioMuted(true)` has been called on the window's contents.
      - `finishFired`, `failFired`, `crashFired`: that `once` listener has
        fired and is gone. */
  datatype SessionState = SessionState(
    urlToScrape: string,
    windowAlive: bool,
    browserWindowRef: bool,
    webContentsRef: bool,
    muted: bool,
    finishFired: bool,
    failFired: bool,
    crashFired: bool,
    responses: seq<Response>,
    sent: seq<Sent>)

  /** The window's contents are muted throughout. A live window is referenced.
      The two references are dropped together. */
  ghost predicate Valid(s: SessionState) {
    && s.muted
    && (s.windowAlive ==> s.browserWindowRef)
    && (s.browserWindowRef <==> s.webContentsRef)
  }

  /** The arguments of the one message the controller sends. The first is the
      literal `1`, the second the URL. */
  function CreateAndLoadArgs(urlToScrape: string): seq<Value> {
    [Num(1), Str(urlToScrape)]
  }

  /** Entry to `scrapeAndAddPage`, up to the registration of its listeners.
      The URL is normalized once, here. The window is created, and its
      contents are muted before any listener can run. Nothing has been sent
      or answered yet. */
  function Start(normalize: string -> string, pageUrl: string): (s: SessionState)
    ensures Valid(s)
    ensures s.urlToScrape == normalize(pageUrl)
    ensures s.windowAlive && s.muted
    ensures !s.finishFired && !s.failFired && !s.crashFired
    ensures s.responses == [] && s.sent == []
  {
    SessionState(normalize(pageUrl), true, true, true, true, false, false, false, [], [])
  }

  /** `closed` drops both references and answers nothing. */
  function OnClosed(s: SessionState): (r: SessionState)
    requires Valid(s) && s.browserWindowRef
    ensures Valid(r)
    ensures !r.windowAlive && !r.browserWindowRef && !r.webContentsRef
    ensures r.responses == s.responses && r.sent == s.sent
    ensures r.(windowAlive := s.windowAlive, browserWindowRef := true, webContentsRef := true) == s
  {
    s.(windowAlive := false, browserWindowRef := false, webContentsRef := false)
  }

  /** `unresponsive` answers 500 and destroys the window. It is registered with
      `on`, so no earlier firing switches it off. */
  function OnUnresponsive(s: SessionState): (r: SessionState)
    requires Valid(s) && s.windowAlive
    ensures Valid(r) && !r.windowAlive
    ensures r.responses == s.responses + [Response(ErrorStatus, UnresponsiveMessage)]
    ensures r.(windowAlive := true, responses := s.responses) == s
  {
    s.(windowAlive := false, responses := s.responses + [Response(ErrorStatus, UnresponsiveMessage)])
  }

  /** The container's `did-finish-load`, a `once` listener. The first firing
      sends `createAndLoadWebview` with arguments `(1, urlToScrape)`. Later
      firings send nothing. */
  function OnDidFinishLoad(s: SessionState): (r: SessionState)
    requires Valid(s) && s.windowAlive
    ensures Valid(r) && r.windowAlive && r.finishFired
    ensures !s.finishFired ==> r.sent == s.sent + [Sent(CreateAndLoadWebview, CreateAndLoadArgs(s.urlToScrape))]
    ensures s.finishFired ==> r == s
    ensures r.(finishFired := s.finishFired, sent := s.sent) == s
  {
    if s.finishFired then s
    else s.(finishFired := true, sent := s.sent + [Sent(CreateAndLoadWebview, CreateAndLoadArgs(s.urlToScrape))])
  }

  /** The container's `did-fail-load`, a `once` listener. The first firing
      answers 500 and destroys the window, whatever `validatedURL` is. */
  function OnDidFailLoad(s: SessionState, errorCode: int, errorDescription: string, validatedURL: string): (r: SessionState)
    requires Valid(s) && s.windowAlive
    ensures Valid(r) && r.failFired
    ensures !s.failFired ==> !r.windowAlive && r.responses == s.responses + [Response(ErrorStatus, DidFailLoadMessage)]
    ensures s.failFired ==> r == s
    ensures r.(windowAlive := s.windowAlive, failFired := s.failFired, responses := s.responses) == s
  {
    if s.failFired then s
    else s.(windowAlive := false, failFired := true, responses := s.responses + [Response(ErrorStatus, DidFailLoadMessage)])
  }

  /** The container's `crashed`, a `once` listener. The first firing answers
      500 and destroys the window. */
  function OnCrashed(s: SessionState): (r: SessionState)
    requires Valid(s) && s.windowAlive
    ensures Valid(r) && r.crashFired
    ensures !s.crashFired ==> !r.windowAlive && r.responses == s.responses + [Response(ErrorStatus, CrashedMessage)]
    ensures s.crashFired ==> r == s
    ensures r.(windowAlive := s.windowAlive, crashFired := s.crashFired, responses := s.responses) == s
  {
    if s.crashFired then s
    else s.(windowAlive := false, crashFired := true, responses := s.responses + [Response(ErrorStatus, CrashedMessage)])
  }

  /** An event can happen in state s. `closed` comes from a window that is
      still referenced. Every other event comes from a live window. That a
      destroyed window emits only `closed` is an assumption about Electron,
      not something the handlers check: an `unresponsive` after `destroy()`
      would answer the request a second time. */
  predicate Handles(s: SessionState, e: Event) {
    if e.Closed? then s.browserWindowRef else s.windowAlive
  }

  function Step(s: SessionState, e: Event): (r: SessionState)
    requires Valid(s) && Handles(s, e)
    ensures Valid(r)
    ensures r.urlToScrape == s.urlToScrape
    ensures s.responses <= r.responses && s.sent <= r.sent
  {
    match e
    case Closed => OnClosed(s)
    case Unresponsive => OnUnresponsive(s)
    case DidFinishLoad => OnDidFinishLoad(s)
    case DidFailLoad(code, description, validatedURL) => OnDidFailLoad(s, code, description, validatedURL)
    case Crashed => OnCrashed(s)
  }

  ghost predicate Deliverable(s: SessionState, evs: seq<Event>)
    requires Valid(s)
    decreases |evs|
  {
    evs == [] || (Handles(s, evs[0]) && Deliverable(Step(s, evs[0]), evs[1..]))
  }

  /** A session as a sequence of events. Every state it reaches is Valid, so
      the contents stay muted. The URL never changes, and responses and sent
      messages are only appended. */
  function Run(s: SessionState, evs: seq<Event>): (r: SessionState)
    requires Valid(s) && Deliverable(s, evs)
    ensures Valid(r)
    ensures r.urlToScrape == s.urlToScrape
    ensures s.responses <= r.responses && s.sent <= r.sent
    decreases |evs|
  {
    if evs == [] then s else Run(Step(s, evs[0]), evs[1..])
  }

  predicate IsErrorResponse(r: Response) {
    r.status == ErrorStatus && r.errorMessage in {UnresponsiveMessage, DidFailLoadMessage, CrashedMessage}
  }

  /** What holds of every state a session reaches from Start:
      - at most one response, and only after the window was destroyed, so
        Express never answers a request twice;
      - every response is one of the three 500 errors;
      - at most one message sent, exactly when the `did-finish-load` listener
        has fired, and it is `createAndLoadWebview` with `(1, urlToScrape)`. */
  ghost predicate Settled(s: SessionState) {
    && Valid(s)
    && |s.responses| <= 1
    && (|s.responses| == 1 ==> !s.windowAlive)
    && (forall i :: 0 <= i < |s.responses| ==> IsErrorResponse(s.responses[i]))
    && |s.sent| <= 1
    && (s.finishFired <==> |s.sent| == 1)
    && (forall i :: 0 <= i < |s.sent| ==> s.sent[i] == Sent(CreateAndLoadWebview, CreateAndLoadArgs(s.urlToScrape)))
  }

  lemma StepSettled(s: SessionState, e: Event)
    requires Settled(s) && Handles(s, e)
    ensures Settled(Step(s, e))
  {
    var r := Step(s, e);
    if !e.Closed? && !e.DidFinishLoad? && |r.responses| > |s.responses| {
      assert |s.responses| == 0;
      assert r.responses[0] == r.responses[|r.responses| - 1];
    }
  }

  lemma {:induction false} RunSettled(s: SessionState, evs: seq<Event>)
    requires Settled(s) && Deliverable(s, evs)
    ensures Settled(Run(s, evs))
    decreases |evs|
  {
    if evs != [] {
      StepSettled(s, evs[0]);
      RunSettled(Step(s, evs[0]), evs[1..]);
    }
  }

  /** Whatever the window does, a request gets at most one response, and it
      is a 500 error. The view loads at most one page: at most one message
      goes to the container, carrying `(1, normalize(pageUrl))`. */
  lemma OneResponsePerRequest(normalize: string -> string, pageUrl: string, evs: seq<Event>)
    requires Deliverable(Start(normalize, pageUrl), evs)
    ensures var r := Run(Start(normalize, pageUrl), evs);
      && |r.responses| <= 1
      && (forall i :: 0 <= i < |r.responses| ==> IsErrorResponse(r.responses[i]))
      && |r.sent| <= 1
      && (forall i :: 0 <= i < |r.sent| ==> r.sent[i] == Sent(CreateAndLoadWebview, CreateAndLoadArgs(normalize(pageUrl))))
  {
    RunSettled(Start(normalize, pageUrl), evs);
  }

  /** The controller as the source keeps it: the variables of one
      `scrapeAndAddPage` call, updated by its handlers. */
  class Session {
    const urlToScrape: string
    var windowAlive: bool
    var browserWindowRef: bool
    var webContentsRef: bool
    var muted: bool
    var finishFired: bool
    var failFired: bool
    var crashFired: bool
    var responses: seq<Response>
    var sent: seq<Sent>

    function State(): SessionState
      reads this
    {
      SessionState(urlToScrape, windowAlive, browserWindowRef, webContentsRef, muted,
                   finishFired, failFired, crashFired, responses, sent)
    }

    /** The body of `scrapeAndAddPage` up to the registration of its listeners. */
    constructor (normalize: string -> string, pageUrl: string)
      ensures State() == Start(normalize, pageUrl)
    {
      urlToScrape := normalize(pageUrl);
      windowAlive, browserWindowRef := true, true;
      webContentsRef := true;
      muted := true;
      finishFired, failFired, crashFired := false, false, false;
      responses, sent := [], [];
    }

    /** `res.status(status).json({errorMessage})`. */
    method Respond(status: int, errorMessage: string)
      modifies this`responses
      ensures responses == old(responses) + [Response(status, errorMessage)]
    {
      responses := responses + [Response(status, errorMessage)];
    }

    /** `browserWindow.destroy()`. */
    method Destroy()
      requires windowAlive
      modifies this`windowAlive
      ensures !windowAlive
    {
      windowAlive := false;
    }

    method Closed()
      requires Valid(State()) && browserWindowRef
      modifies this
      ensures State() == OnClosed(old(State()))
    {
      windowAlive := false;
      browserWindowRef := false;
      webContentsRef := false;
    }

    method Unresponsive()
      requires Valid(State()) && windowAlive
      modifies this
      ensures State() == OnUnresponsive(old(State()))
    {
      Respond(ErrorStatus, UnresponsiveMessage);
      Destroy();
    }

    method DidFinishLoad()
      requires Valid(State()) && windowAlive
      modifies this
      ensures State() == OnDidFinishLoad(old(State()))
    {
      if !finishFired {
        finishFired := true;
        sent := sent + [Sent(CreateAndLoadWebview, [Num(1), Str(urlToScrape)])];
      }
    }

    method DidFailLoad(errorCode: int, errorDescription: string, validatedURL: string)
      requires Valid(State()) && windowAlive
      modifies this
      ensures State() == OnDidFailLoad(old(State()), errorCode, errorDescription, validatedURL)
    {
      if !failFired {
        failFired := true;
        Respond(ErrorStatus, DidFailLoadMessage);
        Destroy();
      }
    }

    method Crashed()
      requires Valid(State()) && windowAlive
      modifies this
      ensures State() == OnCrashed(old(State()))
    {
      if !crashFired {
        crashFired := true;
        Respond(ErrorStatus, CrashedMessage);
        Destroy();
      }
    }
  }
}
