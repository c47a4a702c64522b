/** The mediator of appmodules/server/api/scrape/renderer.js. It runs in the
    container window and handles `createAndLoadWebview` messages. For each one
    it replaces the page's single `<webview>` element, follows that webview's
    top-level redirects, and relays the webview's outcome to the main process.

    Every Electron callback is an input event. Every `ipcRenderer.send` and
    `webview.send` is an entry appended to `outbox`. The closure variables of
    the current handler invocation (`urlToScrape`, `numTimesRedirected`,
    `webview`) are fields of the state. */
module Renderer {
  import opened Js

  /** Identity of a `<webview>` element created by `document.createElement`. */
  type WebviewId = nat

  const LogChannel: string := "webview-log"
  const ErrorChannel: string := "webview-error"
  const ReturnDocDetails: string := "returnDocDetails"
  const ReturnDocDetailsError: string := "returnDocDetailsError"
  const SendPageData: string := "sendPageData"
  const CreateAndLoadLog: string := "createAndLoadWebview"
  const DidFinishLoadLog: string := "did-finish-load"
  const CrashedMessage: string := "webContents: crashed"
  const RedirectLoopMessage: string := "webContents: infinite redirect loop"
  /** A matching redirect is followed while the incremented counter is below this. */
  const RedirectLimit: nat := 6

  /** What an outbound message carries. Every payload sent to the main process
      is `JSON.stringify` of something. The two template strings are kept as
      the values they interpolate. */
  datatype Payload =
    | Json(v: Value)
    | FailLoadReport(errorCode: Value, errorDescription: Value, validatedURL: Value, urlToScrape: Value)
    | PreloadErrorReport(args: seq<Value>)

  datatype Message =
    | ToMain(channel: string, payload: Payload)    // ipcRenderer.send(channel, payload)
    | ToGuest(target: WebviewId, channel: string)  // webview.send(channel)

  /** The events the mediator reacts to: the `createAndLoadWebview` message
      and the listeners of the current webview. `args` holds the arguments a
      listener receives after its first parameter `event`. They bind to
      `(urlToScrape)`, to `(errorCode, errorDescription, validatedURL)` and to
      `(oldURL, newURL)`, and a parameter with no argument is `undefined`.
      When a webview event arrives as one event object with the values as its
      fields, `args` is empty and every such parameter is `undefined`. */
  datatype Event =
    | CreateAndLoad(args: seq<Value>)
    | DomReady
    | DidFinishLoad
    | DidFailLoad(args: seq<Value>)
    | Crashed
    | DidGetRedirectRequest(args: seq<Value>)
    | IpcMessage(channel: string, args: seq<Value>)

  /** The mediator's state.
      - `body` holds the webview children of `document.body`, in order.
      - `nextId` is the identity the next created element gets.
      - `webview` is the closure's reference, or `null` after teardown.
      - `src` is the current element's `src` attribute.
      - `muted` says whether the current element's audio is muted. */
  datatype MediatorState = MediatorState(
    body: seq<WebviewId>,
    nextId: WebviewId,
    webview: Option<WebviewId>,
    src: Value,
    urlToScrape: Value,
    numTimesRedirected: nat,
    muted: bool,
    outbox: seq<Message>)

  /** The body holds at most one webview, and it is exactly the live one.
      While that webview is live, at most five redirects have been followed. */
  ghost predicate Valid(s: MediatorState) {
    && (forall i :: 0 <= i < |s.body| ==> s.body[i] < s.nextId)
    && (s.webview.None? ==> s.body == [])
    && (s.webview.Some? ==> s.body == [s.webview.value] && s.numTimesRedirected < RedirectLimit)
  }

  /** The container document before any `createAndLoadWebview` message. */
  function Initial(): (s: MediatorState)
    ensures Valid(s) && s.webview.None? && s.outbox == []
  {
    MediatorState([], 0, None, Undefined, Undefined, 0, false, [])
  }

  /** `document.body.removeChild(w)`: the body without the element w. */
  function Detach(body: seq<WebviewId>, w: WebviewId): (r: seq<WebviewId>)
    ensures |r| <= |body|
    ensures w in body ==> |r| < |body|
    ensures w !in body ==> r == body
  {
    if body == [] then []
    else (if body[0] == w then [] else [body[0]]) + Detach(body[1..], w)
  }

  /** `removeChild` removes every occurrence of w and keeps every other
      element as often as it occurred. */
  lemma {:induction false} DetachCounts(body: seq<WebviewId>, w: WebviewId)
    ensures multiset(Detach(body, w)) == multiset(body)[w := 0]
    decreases |body|
  {
    if body != [] {
      assert body == [body[0]] + body[1..];
      DetachCounts(body[1..], w);
    }
  }

  /** The result holds exactly the body's elements other than w. */
  lemma DetachMembers(body: seq<WebviewId>, w: WebviewId, x: WebviewId)
    ensures x in Detach(body, w) <==> x in body && x != w
  {
    DetachCounts(body, w);
    assert x in Detach(body, w) <==> multiset(Detach(body, w))[x] > 0;
    assert x in body <==> multiset(body)[x] > 0;
  }

  /** `removeWebview(webview); webview = null`, the teardown of every terminal handler. */
  function Teardown(s: MediatorState): MediatorState
    requires s.webview.Some?
  {
    s.(body := Detach(s.body, s.webview.value), webview := None)
  }

  /** The `createAndLoadWebview` handler. It logs twice and starts a fresh
      counter and tracked URL. It creates a new element and removes the old
      webview, if any. The new element becomes the body's only webview. */
  function OnCreateAndLoad(s: MediatorState, args: seq<Value>): (r: MediatorState)
    requires Valid(s)
    ensures Valid(r)
    ensures r.urlToScrape == Arg(args, 0) && r.src == Arg(args, 0)
    ensures r.numTimesRedirected == 0 && !r.muted
    ensures r.webview.Some? && r.body == [r.webview.value] && r.webview.value !in s.body
    ensures r.outbox == s.outbox + [ToMain(LogChannel, Json(Str(CreateAndLoadLog))), ToMain(LogChannel, Json(Arg(args, 0)))]
  {
    var url := Arg(args, 0);
    var created := s.nextId;
    var rest := if s.body != [] then Detach(s.body, s.body[0]) else s.body;
    MediatorState(
      rest + [created], created + 1, Some(created), url, url, 0, false,
      s.outbox + [ToMain(LogChannel, Json(Str(CreateAndLoadLog))), ToMain(LogChannel, Json(url))])
  }

  /** `dom-ready` mutes the webview and changes nothing else. */
  function OnDomReady(s: MediatorState): (r: MediatorState)
    requires Valid(s) && s.webview.Some?
    ensures Valid(r) && r.muted
    ensures r.(muted := s.muted) == s
  {
    s.(muted := true)
  }

  /** `did-finish-load` logs and asks the live webview for its page data.
      No tracked state changes. */
  function OnDidFinishLoad(s: MediatorState): (r: MediatorState)
    requires Valid(s) && s.webview.Some?
    ensures Valid(r)
    ensures r.outbox == s.outbox + [ToMain(LogChannel, Json(Str(DidFinishLoadLog))), ToGuest(s.webview.value, SendPageData)]
    ensures r.(outbox := s.outbox) == s
  {
    s.(outbox := s.outbox + [ToMain(LogChannel, Json(Str(DidFinishLoadLog))), ToGuest(s.webview.value, SendPageData)])
  }

  /** `did-fail-load` acts only when `validatedURL === urlToScrape`, that is,
      when the failure is for the current, post-redirect tracked URL. Then it
      reports the failure and tears the webview down. A failure of any other
      URL (a subresource) has no effect. */
  function OnDidFailLoad(s: MediatorState, args: seq<Value>): (r: MediatorState)
    requires Valid(s) && s.webview.Some?
    ensures Valid(r)
    ensures Arg(args, 2) != s.urlToScrape ==> r == s
    ensures Arg(args, 2) == s.urlToScrape ==>
      && r.webview.None? && r.body == []
      && r.outbox == s.outbox + [ToMain(ErrorChannel, FailLoadReport(Arg(args, 0), Arg(args, 1), Arg(args, 2), s.urlToScrape))]
      && r.(body := s.body, webview := s.webview, outbox := s.outbox) == s
  {
    var errorCode, errorDescription, validatedURL := Arg(args, 0), Arg(args, 1), Arg(args, 2);
    if validatedURL == s.urlToScrape then
      Teardown(s).(outbox := s.outbox + [ToMain(ErrorChannel, FailLoadReport(errorCode, errorDescription, validatedURL, s.urlToScrape))])
    else
      s
  }

  /** `crashed` always reports the crash and tears the webview down. */
  function OnCrashed(s: MediatorState): (r: MediatorState)
    requires Valid(s) && s.webview.Some?
    ensures Valid(r)
    ensures r.webview.None? && r.body == []
    ensures r.outbox == s.outbox + [ToMain(ErrorChannel, Json(Str(CrashedMessage)))]
    ensures r.(body := s.body, webview := s.webview, outbox := s.outbox) == s
  {
    Teardown(s).(outbox := s.outbox + [ToMain(ErrorChannel, Json(Str(CrashedMessage)))])
  }

  /** `did-get-redirect-request`. A redirect whose `oldURL` is not the tracked
      URL (a subresource) changes nothing. A matching redirect increments the
      counter. While the count stays below 6, the tracked URL becomes the
      normalized new URL and the webview stays. The redirect that brings the
      count to 6 reports a loop and tears the webview down. The tracked URL is
      then left as it was. */
  function OnDidGetRedirectRequest(normalize: Value -> Value, s: MediatorState, args: seq<Value>): (r: MediatorState)
    requires Valid(s) && s.webview.Some?
    ensures Valid(r)
    ensures Arg(args, 0) != s.urlToScrape ==> r == s
    ensures Arg(args, 0) == s.urlToScrape ==> r.numTimesRedirected == s.numTimesRedirected + 1
    ensures Arg(args, 0) == s.urlToScrape && s.numTimesRedirected + 1 < RedirectLimit ==>
      r == s.(urlToScrape := normalize(Arg(args, 1)), numTimesRedirected := s.numTimesRedirected + 1)
    ensures Arg(args, 0) == s.urlToScrape && s.numTimesRedirected + 1 == RedirectLimit ==>
      && r.webview.None? && r.body == []
      && r.outbox == s.outbox + [ToMain(ErrorChannel, Json(Str(RedirectLoopMessage)))]
      && r.(body := s.body, webview := s.webview, numTimesRedirected := s.numTimesRedirected, outbox := s.outbox) == s
  {
    var oldURL, newURL := Arg(args, 0), Arg(args, 1);
    if oldURL == s.urlToScrape then
      var count := s.numTimesRedirected + 1;
      if count < RedirectLimit then
        s.(urlToScrape := normalize(newURL), numTimesRedirected := count)
      else
        Teardown(s).(numTimesRedirected := count, outbox := s.outbox + [ToMain(ErrorChannel, Json(Str(RedirectLoopMessage)))])
    else
      s
  }

  /** `ipc-message` from the preload script. Whatever the channel, it tears
      the webview down. `returnDocDetails` forwards the first argument to the
      main process. `returnDocDetailsError` reports the arguments as an error.
      Any other channel forwards nothing. */
  function OnIpcMessage(s: MediatorState, channel: string, args: seq<Value>): (r: MediatorState)
    requires Valid(s) && s.webview.Some?
    ensures Valid(r)
    ensures r.webview.None? && r.body == []
    ensures r.(body := s.body, webview := s.webview, outbox := s.outbox) == s
    ensures channel == ReturnDocDetails ==> r.outbox == s.outbox + [ToMain(ReturnDocDetails, Json(Arg(args, 0)))]
    ensures channel == ReturnDocDetailsError ==> r.outbox == s.outbox + [ToMain(ErrorChannel, PreloadErrorReport(args))]
    ensures channel != ReturnDocDetails && channel != ReturnDocDetailsError ==> r.outbox == s.outbox
  {
    var outbox :=
      if channel == ReturnDocDetails then s.outbox + [ToMain(ReturnDocDetails, Json(Arg(args, 0)))]
      else if channel == ReturnDocDetailsError then s.outbox + [ToMain(ErrorChannel, PreloadErrorReport(args))]
      else s.outbox;
    Teardown(s).(outbox := outbox)
  }

  /** An event can happen in state s: a `createAndLoadWebview` message can
      always arrive, and a webview event comes only from the live webview.
      That a webview detached from the body emits no more events is an
      assumption about Electron, not something the handlers check. Without it
      a late `crashed` or `ipc-message` would still send its message before
      `removeWebview(null)` throws. */
  predicate Handles(s: MediatorState, e: Event) {
    e.CreateAndLoad? || s.webview.Some?
  }

  /** One event, dispatched to its handler. */
  function Step(normalize: Value -> Value, s: MediatorState, e: Event): (r: MediatorState)
    requires Valid(s) && Handles(s, e)
    ensures Valid(r)
    ensures s.outbox <= r.outbox
  {
    match e
    case CreateAndLoad(args) => OnCreateAndLoad(s, args)
    case DomReady => OnDomReady(s)
    case DidFinishLoad => OnDidFinishLoad(s)
    case DidFailLoad(args) => OnDidFailLoad(s, args)
    case Crashed => OnCrashed(s)
    case DidGetRedirectRequest(args) => OnDidGetRedirectRequest(normalize, s, args)
    case IpcMessage(channel, args) => OnIpcMessage(s, channel, args)
  }

  /** Every event of evs can happen when its turn comes. */
  ghost predicate Deliverable(normalize: Value -> Value, s: MediatorState, evs: seq<Event>)
    requires Valid(s)
    decreases |evs|
  {
    evs == [] || (Handles(s, evs[0]) && Deliverable(normalize, Step(normalize, s, evs[0]), evs[1..]))
  }

  /** A session as a sequence of events. Every reachable state is Valid: at
      most one webview in the body, and at most five followed redirects while
      it is live. The outbox only grows. */
  function Run(normalize: Value -> Value, s: MediatorState, evs: seq<Event>): (r: MediatorState)
    requires Valid(s) && Deliverable(normalize, s, evs)
    ensures Valid(r)
    ensures s.outbox <= r.outbox
    decreases |evs|
  {
    if evs == [] then s else Run(normalize, Step(normalize, s, evs[0]), evs[1..])
  }

  /** A non-empty run is its first step followed by the rest. */
  lemma RunCons(normalize: Value -> Value, s: MediatorState, evs: seq<Event>)
    requires Valid(s) && evs != [] && Handles(s, evs[0])
    ensures Deliverable(normalize, s, evs) == Deliverable(normalize, Step(normalize, s, evs[0]), evs[1..])
    ensures Deliverable(normalize, s, evs) ==> Run(normalize, s, evs) == Run(normalize, Step(normalize, s, evs[0]), evs[1..])
  {
  }

  /** Two deliverable event sequences, one after the other, are deliverable. */
  lemma {:induction false} DeliverableAppend(normalize: Value -> Value, s: MediatorState, a: seq<Event>, b: seq<Event>)
    requires Valid(s) && Deliverable(normalize, s, a)
    requires Deliverable(normalize, Run(normalize, s, a), b)
    ensures Deliverable(normalize, s, a + b)
    decreases |a|
  {
    if a == [] {
      assert a + b == b;
    } else {
      DeliverableConsAppend(normalize, s, a, b);
      DeliverableAppend(normalize, Step(normalize, s, a[0]), a[1..], b);
    }
  }

  /** A concatenation can happen when its first step can, and the rest can
      happen from there. */
  lemma DeliverableConsAppend(normalize: Value -> Value, s: MediatorState, a: seq<Event>, b: seq<Event>)
    requires Valid(s) && a != [] && Deliverable(normalize, s, a)
    ensures Handles(s, a[0]) && Deliverable(normalize, Step(normalize, s, a[0]), a[1..])
    ensures Run(normalize, s, a) == Run(normalize, Step(normalize, s, a[0]), a[1..])
    ensures Deliverable(normalize, Step(normalize, s, a[0]), a[1..] + b) ==> Deliverable(normalize, s, a + b)
  {
    assert (a + b)[0] == a[0] && (a + b)[1..] == a[1..] + b;
    RunCons(normalize, s, a);
    RunCons(normalize, s, a + b);
  }

  lemma {:induction false} RunAppend(normalize: Value -> Value, s: MediatorState, a: seq<Event>, b: seq<Event>)
    requires Valid(s) && Deliverable(normalize, s, a)
    requires Deliverable(normalize, Run(normalize, s, a), b)
    ensures Deliverable(normalize, s, a + b)
    ensures Run(normalize, s, a + b) == Run(normalize, Run(normalize, s, a), b)
    decreases |a|
  {
    DeliverableAppend(normalize, s, a, b);
    if a == [] {
      assert a + b == b;
    } else {
      RunConsAppend(normalize, s, a, b);
      RunAppend(normalize, Step(normalize, s, a[0]), a[1..], b);
    }
  }

  /** The first step of a concatenation is the first step of its first part. */
  lemma RunConsAppend(normalize: Value -> Value, s: MediatorState, a: seq<Event>, b: seq<Event>)
    requires Valid(s) && a != [] && Deliverable(normalize, s, a) && Deliverable(normalize, s, a + b)
    ensures Handles(s, a[0])
    ensures Run(normalize, s, a) == Run(normalize, Step(normalize, s, a[0]), a[1..])
    ensures Deliverable(normalize, Step(normalize, s, a[0]), a[1..] + b)
    ensures Run(normalize, s, a + b) == Run(normalize, Step(normalize, s, a[0]), a[1..] + b)
  {
    assert (a + b)[0] == a[0] && (a + b)[1..] == a[1..] + b;
    RunCons(normalize, s, a);
    RunCons(normalize, s, a + b);
  }

  /** The redirect events of a list of (oldURL, newURL) hops. */
  function Redirects(hops: seq<(Value, Value)>): (evs: seq<Event>)
    ensures |evs| == |hops|
    ensures forall i :: 0 <= i < |hops| ==> evs[i] == DidGetRedirectRequest([hops[i].0, hops[i].1])
  {
    if hops == [] then [] else [DidGetRedirectRequest([hops[0].0, hops[0].1])] + Redirects(hops[1..])
  }

  /** A chain of top-level redirects starting at `start`: each hop leaves the
      URL that the previous hop was normalized to. */
  ghost predicate IsChain(normalize: Value -> Value, start: Value, hops: seq<(Value, Value)>) {
    && (|hops| > 0 ==> hops[0].0 == start)
    && (forall i :: 0 <= i < |hops| - 1 ==> hops[i + 1].0 == normalize(hops[i].1))
  }

  /** The URL a chain ends at. */
  function ChainEnd(normalize: Value -> Value, start: Value, hops: seq<(Value, Value)>): Value {
    if hops == [] then start else normalize(hops[|hops| - 1].1)
  }

  /** A chain of matching redirects that keeps the count below 6 is followed
      hop by hop. The tracked URL ends at the chain's normalized end, the
      counter grows by the chain's length, and nothing else changes. */
  lemma {:induction false} FollowChain(normalize: Value -> Value, s: MediatorState, start: Value, hops: seq<(Value, Value)>)
    requires Valid(s) && s.webview.Some? && s.urlToScrape == start
    requires IsChain(normalize, start, hops)
    requires s.numTimesRedirected + |hops| < RedirectLimit
    ensures Deliverable(normalize, s, Redirects(hops))
    ensures Run(normalize, s, Redirects(hops))
         == s.(urlToScrape := ChainEnd(normalize, start, hops), numTimesRedirected := s.numTimesRedirected + |hops|)
    decreases |hops|
  {
    if hops != [] {
      var next := normalize(hops[0].1);
      var tail := hops[1..];
      var s1 := s.(urlToScrape := next, numTimesRedirected := s.numTimesRedirected + 1);
      FirstHop(normalize, s, hops);
      assert IsChain(normalize, next, tail) by {
        forall i | 0 <= i < |tail| - 1
          ensures tail[i + 1].0 == normalize(tail[i].1)
        {
          assert tail[i] == hops[i + 1];
        }
      }
      FollowChain(normalize, s1, next, tail);
      assert ChainEnd(normalize, next, tail) == ChainEnd(normalize, start, hops);
    }
  }

  /** A run of redirects whose first hop matches is that hop, then the rest. */
  lemma FirstHop(normalize: Value -> Value, s: MediatorState, hops: seq<(Value, Value)>)
    requires Valid(s) && s.webview.Some? && hops != [] && s.urlToScrape == hops[0].0
    requires s.numTimesRedirected + 1 < RedirectLimit
    ensures Valid(s.(urlToScrape := normalize(hops[0].1), numTimesRedirected := s.numTimesRedirected + 1))
    ensures var s1 := s.(urlToScrape := normalize(hops[0].1), numTimesRedirected := s.numTimesRedirected + 1);
      && Deliverable(normalize, s, Redirects(hops)) == Deliverable(normalize, s1, Redirects(hops[1..]))
      && (Deliverable(normalize, s1, Redirects(hops[1..])) ==> Run(normalize, s, Redirects(hops)) == Run(normalize, s1, Redirects(hops[1..])))
  {
    FollowHop(normalize, s, hops[0]);
    assert Redirects(hops)[1..] == Redirects(hops[1..]);
    RunCons(normalize, s, Redirects(hops));
  }


  /** One matching redirect below the limit moves the tracked URL to the
      normalized new URL and counts it. */
  lemma FollowHop(normalize: Value -> Value, s: MediatorState, hop: (Value, Value))
    requires Valid(s) && s.webview.Some? && s.urlToScrape == hop.0
    requires s.numTimesRedirected + 1 < RedirectLimit
    ensures Step(normalize, s, DidGetRedirectRequest([hop.0, hop.1]))
         == s.(urlToScrape := normalize(hop.1), numTimesRedirected := s.numTimesRedirected + 1)
  {
    assert Arg([hop.0, hop.1], 0) == hop.0 && Arg([hop.0, hop.1], 1) == hop.1;
  }

  /** A chain of matching redirects that brings the count to exactly 6 ends in
      a reported loop. Only the last hop is refused. The tracked URL stays
      where the hop before it led, the webview is gone, and the loop error is
      the only message sent. */
  lemma {:induction false} SixthRedirectIsLoop(normalize: Value -> Value, s: MediatorState, start: Value, hops: seq<(Value, Value)>)
    requires Valid(s) && s.webview.Some? && s.urlToScrape == start
    requires IsChain(normalize, start, hops) && |hops| > 0
    requires s.numTimesRedirected + |hops| == RedirectLimit
    ensures Deliverable(normalize, s, Redirects(hops))
    ensures var r := Run(normalize, s, Redirects(hops));
      && r.webview.None? && r.body == []
      && r.numTimesRedirected == RedirectLimit
      && r.urlToScrape == ChainEnd(normalize, start, hops[..|hops| - 1])
      && r.outbox == s.outbox + [ToMain(ErrorChannel, Json(Str(RedirectLoopMessage)))]
  {
    var n := |hops| - 1;
    var front := hops[..n];
    var last := [DidGetRedirectRequest([hops[n].0, hops[n].1])];
    assert Redirects(front) + last == Redirects(hops);
    assert IsChain(normalize, start, front) by {
      forall i | 0 <= i < |front| - 1
        ensures front[i + 1].0 == normalize(front[i].1)
      {
        assert front[i] == hops[i];
      }
    }
    assert hops[n].0 == ChainEnd(normalize, start, front) by {
      if n > 0 {
        assert front[n - 1] == hops[n - 1];
        assert hops[(n - 1) + 1].0 == normalize(hops[n - 1].1);
      }
    }
    FollowChain(normalize, s, start, front);
    ghost var s1 := Run(normalize, s, Redirects(front));
    assert s1.webview.Some? && s1.urlToScrape == hops[n].0;
    assert s1.numTimesRedirected + 1 == RedirectLimit && s1.outbox == s.outbox;
    LoopHop(normalize, s1, hops[n]);
    RunSingle(normalize, s1, last[0]);
    RunAppend(normalize, s, Redirects(front), last);
  }

  /** The matching redirect that brings the count to 6 tears the webview
      down and reports the loop. */
  lemma LoopHop(normalize: Value -> Value, s: MediatorState, hop: (Value, Value))
    requires Valid(s) && s.webview.Some? && s.urlToScrape == hop.0
    requires s.numTimesRedirected + 1 == RedirectLimit
    ensures Step(normalize, s, DidGetRedirectRequest([hop.0, hop.1]))
         == s.(body := [], webview := None, numTimesRedirected := RedirectLimit,
               outbox := s.outbox + [ToMain(ErrorChannel, Json(Str(RedirectLoopMessage)))])
  {
    assert Arg([hop.0, hop.1], 0) == hop.0;
  }

  /** Redirects that do not leave the tracked URL (subresource redirects)
      change nothing: not the counter, not the URL, not the body, not the
      outbox. */
  lemma {:induction false} ForeignRedirectsChangeNothing(normalize: Value -> Value, s: MediatorState, hops: seq<(Value, Value)>)
    requires Valid(s) && s.webview.Some?
    requires forall i :: 0 <= i < |hops| ==> hops[i].0 != s.urlToScrape
    ensures Deliverable(normalize, s, Redirects(hops))
    ensures Run(normalize, s, Redirects(hops)) == s
    decreases |hops|
  {
    if hops != [] {
      assert Step(normalize, s, Redirects(hops)[0]) == s;
      assert Redirects(hops)[1..] == Redirects(hops[1..]);
      ForeignRedirectsChangeNothing(normalize, s, hops[1..]);
    }
  }

  /** A URL a webview listener can bind: a string, or `undefined` when the
      argument is absent. */
  predicate UrlLike(v: Value) {
    v.Str? || v.Undefined?
  }

  /** The argument a failure or redirect listener compares with the tracked
      value is URL-like: a failure's `validatedURL` (its third argument) and
      a redirect's `oldURL` (its first). The other arguments, such as a
      failure's numeric `errorCode`, are unconstrained. */
  predicate UrlArgs(e: Event) {
    && (e.DidFailLoad? ==> UrlLike(Arg(e.args, 2)))
    && (e.DidGetRedirectRequest? ==> UrlLike(Arg(e.args, 0)))
  }

  /** A message the mediator only sends when an event matched the tracked
      URL: a load-failure report or the redirect-loop report. */
  predicate ReportsTrackedUrl(m: Message) {
    m.ToMain? && m.channel == ErrorChannel && (m.payload.FailLoadReport? || m.payload == Json(Str(RedirectLoopMessage)))
  }

  /** A tracked value that is not URL-like never equals a redirect's `oldURL`
      or a failure's `validatedURL` under `===`. So a run of redirects and
      load failures then changes nothing: no redirect is counted and no
      failure is reported. */
  lemma {:induction false} UntrackableUrlIgnoresRedirectsAndFailures(normalize: Value -> Value, s: MediatorState, evs: seq<Event>)
    requires Valid(s) && s.webview.Some? && !UrlLike(s.urlToScrape)
    requires forall i :: 0 <= i < |evs| ==> (evs[i].DidGetRedirectRequest? || evs[i].DidFailLoad?) && UrlArgs(evs[i])
    ensures Deliverable(normalize, s, evs)
    ensures Run(normalize, s, evs) == s
    decreases |evs|
  {
    if evs != [] {
      assert Step(normalize, s, evs[0]) == s;
      UntrackableUrlIgnoresRedirectsAndFailures(normalize, s, evs[1..]);
    }
  }

  /** One webview event, from a state whose tracked value is not URL-like,
      keeps the tracked value and the counter and sends no report of the
      tracked URL. */
  lemma UntrackableUrlStep(normalize: Value -> Value, s: MediatorState, e: Event)
    requires Valid(s) && Handles(s, e) && !e.CreateAndLoad? && UrlArgs(e)
    requires !UrlLike(s.urlToScrape)
    ensures var r := Step(normalize, s, e);
      && r.urlToScrape == s.urlToScrape && r.numTimesRedirected == s.numTimesRedirected
      && forall k :: |s.outbox| <= k < |r.outbox| ==> !ReportsTrackedUrl(r.outbox[k])
  {
    if e.DidFailLoad? || e.DidGetRedirectRequest? {
      assert Step(normalize, s, e) == s;
    }
  }

  /** Between two `createAndLoadWebview` messages, a tracked value that is
      not URL-like stays tracked whatever the webview does: the counter never
      moves, and no load failure or redirect loop is ever reported. */
  lemma {:induction false} UntrackableUrlSticks(normalize: Value -> Value, s: MediatorState, evs: seq<Event>)
    requires Valid(s) && !UrlLike(s.urlToScrape) && Deliverable(normalize, s, evs)
    requires forall i :: 0 <= i < |evs| ==> !evs[i].CreateAndLoad? && UrlArgs(evs[i])
    ensures var r := Run(normalize, s, evs);
      && r.urlToScrape == s.urlToScrape && r.numTimesRedirected == s.numTimesRedirected
      && forall k :: |s.outbox| <= k < |r.outbox| ==> !ReportsTrackedUrl(r.outbox[k])
    decreases |evs|
  {
    if evs != [] {
      var s1 := Step(normalize, s, evs[0]);
      UntrackableUrlStep(normalize, s, evs[0]);
      UntrackableUrlSticks(normalize, s1, evs[1..]);
    }
  }

  /** The happy path. A `createAndLoadWebview` message carries the URL start.
      The webview then follows five matching redirects, finishes loading, and
      its preload script returns the page data. In that order the mediator:
      - logs the message;
      - asks the new webview for its data after the load;
      - forwards the data to the main process.
      The webview is then gone. The URL it loaded last is the chain's end. */
  lemma FiveRedirectsThenPageData(normalize: Value -> Value, s: MediatorState, start: Value, hops: seq<(Value, Value)>, data: Value)
    requires Valid(s) && IsChain(normalize, start, hops) && |hops| == RedirectLimit - 1
    ensures var evs := [CreateAndLoad([start])] + Redirects(hops) + [DidFinishLoad, IpcMessage(ReturnDocDetails, [data])];
      && Deliverable(normalize, s, evs)
      && var r := Run(normalize, s, evs);
      && r.webview.None? && r.body == []
      && r.urlToScrape == ChainEnd(normalize, start, hops)
      && r.numTimesRedirected == RedirectLimit - 1
      && r.outbox == s.outbox + [
           ToMain(LogChannel, Json(Str(CreateAndLoadLog))), ToMain(LogChannel, Json(start)),
           ToMain(LogChannel, Json(Str(DidFinishLoadLog))), ToGuest(s.nextId, SendPageData),
           ToMain(ReturnDocDetails, Json(data))]
  {
    var create := [CreateAndLoad([start])];
    var chain := Redirects(hops);
    var tail := [DidFinishLoad, IpcMessage(ReturnDocDetails, [data])];
    var w := s.nextId;
    CreateThenFollow(normalize, s, start, hops);
    ghost var s2 := Run(normalize, s, create + chain);
    assert s2.webview == Some(w);
    FinishThenReply(normalize, s2, data);
    ghost var r := Run(normalize, s2, tail);
    assert r.outbox == s2.outbox + [ToMain(LogChannel, Json(Str(DidFinishLoadLog))), ToGuest(w, SendPageData), ToMain(ReturnDocDetails, Json(data))];
    RunAppend(normalize, s, create + chain, tail);
    assert Run(normalize, s, create + chain + tail) == r;
    Flatten(s.outbox, ToMain(LogChannel, Json(Str(CreateAndLoadLog))), ToMain(LogChannel, Json(start)),
      ToMain(LogChannel, Json(Str(DidFinishLoadLog))), ToGuest(w, SendPageData), ToMain(ReturnDocDetails, Json(data)));
  }

  lemma Flatten<T>(log: seq<T>, a: T, b: T, c: T, d: T, e: T)
    ensures (log + [a, b]) + [c, d, e] == log + [a, b, c, d, e]
  {
  }

  /** The first part of the happy path: the message, then a chain of redirects
      kept below the limit. */
  lemma CreateThenFollow(normalize: Value -> Value, s: MediatorState, start: Value, hops: seq<(Value, Value)>)
    requires Valid(s) && IsChain(normalize, start, hops) && |hops| < RedirectLimit
    ensures Deliverable(normalize, s, [CreateAndLoad([start])] + Redirects(hops))
    ensures var r := Run(normalize, s, [CreateAndLoad([start])] + Redirects(hops));
      && r.webview == Some(s.nextId)
      && r.urlToScrape == ChainEnd(normalize, start, hops)
      && r.numTimesRedirected == |hops|
      && r.outbox == s.outbox + [ToMain(LogChannel, Json(Str(CreateAndLoadLog))), ToMain(LogChannel, Json(start))]
  {
    var create := [CreateAndLoad([start])];
    RunSingle(normalize, s, create[0]);
    ghost var s1 := Run(normalize, s, create);
    assert s1.webview == Some(s.nextId) && s1.urlToScrape == start && s1.numTimesRedirected == 0;
    FollowChain(normalize, s1, start, hops);
    RunAppend(normalize, s, create, Redirects(hops));
  }

  /** The last part of the happy path: the load completes and the preload
      script returns the page data. */
  lemma FinishThenReply(normalize: Value -> Value, s: MediatorState, data: Value)
    requires Valid(s) && s.webview.Some?
    ensures Deliverable(normalize, s, [DidFinishLoad, IpcMessage(ReturnDocDetails, [data])])
    ensures var r := Run(normalize, s, [DidFinishLoad, IpcMessage(ReturnDocDetails, [data])]);
      && r.webview.None? && r.body == []
      && r.urlToScrape == s.urlToScrape && r.numTimesRedirected == s.numTimesRedirected
      && r.outbox == s.outbox + [ToMain(LogChannel, Json(Str(DidFinishLoadLog))), ToGuest(s.webview.value, SendPageData), ToMain(ReturnDocDetails, Json(data))]
  {
    var finish := [DidFinishLoad];
    var reply := [IpcMessage(ReturnDocDetails, [data])];
    assert finish + reply == [DidFinishLoad, IpcMessage(ReturnDocDetails, [data])];
    RunSingle(normalize, s, finish[0]);
    ghost var s3 := Run(normalize, s, finish);
    assert s3 == OnDidFinishLoad(s);
    RunSingle(normalize, s3, reply[0]);
    RunAppend(normalize, s, finish, reply);
    ghost var s4 := Run(normalize, s3, reply);
    assert s4 == OnIpcMessage(s3, ReturnDocDetails, [data]);
    assert Arg([data], 0) == data;
  }

  lemma RunSingle(normalize: Value -> Value, s: MediatorState, e: Event)
    requires Valid(s) && Handles(s, e)
    ensures Deliverable(normalize, s, [e]) && Run(normalize, s, [e]) == Step(normalize, s, e)
  {
    assert [e][1..] == [];
  }

  /** A message that resolves a webview: an error report or forwarded page data. */
  predicate Resolves(m: Message) {
    m.ToMain? && m.channel != LogChannel
  }

  /** How many resolving messages a log holds. */
  function Resolutions(log: seq<Message>): nat {
    if log == [] then 0
    else Resolutions(log[..|log| - 1]) + (if Resolves(log[|log| - 1]) then 1 else 0)
  }

  lemma ResolutionsAppendOne(log: seq<Message>, m: Message)
    ensures Resolutions(log + [m]) == Resolutions(log) + (if Resolves(m) then 1 else 0)
  {
    assert (log + [m])[..|log|] == log;
  }

  /** One webview event adds at most one resolving message. It adds none
      unless it also tears the webview down. */
  lemma StepResolutions(normalize: Value -> Value, s: MediatorState, e: Event)
    requires Valid(s) && Handles(s, e) && !e.CreateAndLoad?
    ensures var r := Step(normalize, s, e);
      && Resolutions(r.outbox) <= Resolutions(s.outbox) + 1
      && (r.webview.Some? ==> Resolutions(r.outbox) == Resolutions(s.outbox))
  {
    var r := Step(normalize, s, e);
    if e.DidFinishLoad? {
      var log1 := s.outbox + [ToMain(LogChannel, Json(Str(DidFinishLoadLog)))];
      ResolutionsAppendOne(s.outbox, ToMain(LogChannel, Json(Str(DidFinishLoadLog))));
      ResolutionsAppendOne(log1, ToGuest(s.webview.value, SendPageData));
      assert r.outbox == log1 + [ToGuest(s.webview.value, SendPageData)];
    } else if r.outbox != s.outbox {
      assert r.outbox == s.outbox + [r.outbox[|r.outbox| - 1]];
      ResolutionsAppendOne(s.outbox, r.outbox[|r.outbox| - 1]);
    }
  }

  /** Exactly one outcome per webview. Once a `createAndLoadWebview` message
      has created a webview, the events that follow send at most one error
      report or page-data message before the next such message. While the
      webview is still live they have sent none. */
  lemma {:induction false} AtMostOneResolution(normalize: Value -> Value, s: MediatorState, evs: seq<Event>)
    requires Valid(s) && Deliverable(normalize, s, evs)
    requires forall i :: 0 <= i < |evs| ==> !evs[i].CreateAndLoad?
    ensures var r := Run(normalize, s, evs);
      && Resolutions(r.outbox) <= Resolutions(s.outbox) + (if s.webview.Some? then 1 else 0)
      && (r.webview.Some? ==> Resolutions(r.outbox) == Resolutions(s.outbox))
    decreases |evs|
  {
    if evs != [] {
      var s1 := Step(normalize, s, evs[0]);
      StepResolutions(normalize, s, evs[0]);
      AtMostOneResolution(normalize, s1, evs[1..]);
    }
  }

  /** The mediator as the source keeps it: the handler's closure variables and
      the document body, updated in place. */
  class Mediator {
    /** `url.parse(x).href`, a library call whose definition is not modelled. */
    const normalize: Value -> Value
    var body: seq<WebviewId>
    var nextId: WebviewId
    var webview: Option<WebviewId>
    var src: Value
    var urlToScrape: Value
    var numTimesRedirected: nat
    var muted: bool
    var outbox: seq<Message>

    function State(): MediatorState
      reads this
    {
      MediatorState(body, nextId, webview, src, urlToScrape, numTimesRedirected, muted, outbox)
    }

    constructor (normalize: Value -> Value)
      ensures this.normalize == normalize && State() == Initial()
    {
      this.normalize := normalize;
      body, nextId, webview := [], 0, None;
      src, urlToScrape, numTimesRedirected, muted := Undefined, Undefined, 0, false;
      outbox := [];
    }

    /** `removeWebview`: detach the element from the body. */
    method RemoveWebview(w: WebviewId)
      requires w in body
      modifies this`body
      ensures body == Detach(old(body), w)
    {
      body := Detach(body, w);
    }

    /** `sendErrorToMainProcess`: one message on the error channel. */
    method SendErrorToMainProcess(data: Payload)
      modifies this`outbox
      ensures outbox == old(outbox) + [ToMain(ErrorChannel, data)]
    {
      outbox := outbox + [ToMain(ErrorChannel, data)];
    }

    /** `sendLogToMainProcess`: one message on the log channel. */
    method SendLogToMainProcess(data: Payload)
      modifies this`outbox
      ensures outbox == old(outbox) + [ToMain(LogChannel, data)]
    {
      outbox := outbox + [ToMain(LogChannel, data)];
    }

    method CreateAndLoadWebview(args: seq<Value>)
      requires Valid(State())
      modifies this
      ensures State() == OnCreateAndLoad(old(State()), args)
    {
      var url := Arg(args, 0);
      SendLogToMainProcess(Json(Str(CreateAndLoadLog)));
      SendLogToMainProcess(Json(url));
      numTimesRedirected := 0;
      var created := nextId;
      nextId := nextId + 1;
      src := url;
      muted := false;
      if body != [] {
        RemoveWebview(body[0]);
      }
      urlToScrape := url;
      webview := Some(created);
      body := body + [created];
    }

    method DomReady()
      requires Valid(State()) && webview.Some?
      modifies this
      ensures State() == OnDomReady(old(State()))
    {
      muted := true;
    }

    method DidFinishLoad()
      requires Valid(State()) && webview.Some?
      modifies this
      ensures State() == OnDidFinishLoad(old(State()))
    {
      SendLogToMainProcess(Json(Str(DidFinishLoadLog)));
      outbox := outbox + [ToGuest(webview.value, SendPageData)];
    }

    method DidFailLoad(args: seq<Value>)
      requires Valid(State()) && webview.Some?
      modifies this
      ensures State() == OnDidFailLoad(old(State()), args)
    {
      var errorCode, errorDescription, validatedURL := Arg(args, 0), Arg(args, 1), Arg(args, 2);
      if validatedURL == urlToScrape {
        SendErrorToMainProcess(FailLoadReport(errorCode, errorDescription, validatedURL, urlToScrape));
        RemoveWebview(webview.value);
        webview := None;
      }
    }

    method Crashed()
      requires Valid(State()) && webview.Some?
      modifies this
      ensures State() == OnCrashed(old(State()))
    {
      SendErrorToMainProcess(Json(Str(CrashedMessage)));
      RemoveWebview(webview.value);
      webview := None;
    }

    method DidGetRedirectRequest(args: seq<Value>)
      requires Valid(State()) && webview.Some?
      modifies this
      ensures State() == OnDidGetRedirectRequest(normalize, old(State()), args)
    {
      var oldURL, newURL := Arg(args, 0), Arg(args, 1);
      if oldURL == urlToScrape {
        numTimesRedirected := numTimesRedirected + 1;
        if numTimesRedirected < RedirectLimit {
          urlToScrape := normalize(newURL);
        } else {
          SendErrorToMainProcess(Json(Str(RedirectLoopMessage)));
          RemoveWebview(webview.value);
          webview := None;
        }
      }
    }

    method IpcMessage(channel: string, args: seq<Value>)
      requires Valid(State()) && webview.Some?
      modifies this
      ensures State() == OnIpcMessage(old(State()), channel, args)
    {
      if channel == ReturnDocDetails {
        outbox := outbox + [ToMain(ReturnDocDetails, Json(Arg(args, 0)))];
      } else if channel == ReturnDocDetailsError {
        SendErrorToMainProcess(PreloadErrorReport(args));
      }
      RemoveWebview(webview.value);
      webview := None;
    }
  }
}
