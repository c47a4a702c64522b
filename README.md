# Scrape pipeline: controller and mediator

This project models the two live event handlers of MarkSearch's page scraper.

- The main process calls `scrapeAndAddPage` (the **controller**). It opens a hidden container window and mutes its audio. When the container has loaded, it sends the container one `createAndLoadWebview` message.
- The container runs the **mediator** (`renderer.js`). The mediator keeps at most one `<webview>` in the document body. It follows that webview's top-level redirects, at most five. Each terminal event of the webview tears the webview down: a load failure of the tracked URL, a crash, a redirect loop, or any message from the preload script. The failure, the crash and the loop are reported on `webview-error`. A preload message on `returnDocDetails` is forwarded and one on `returnDocDetailsError` is reported as an error. A preload message on any other channel reports nothing.

Each side is a small sequential state machine. Every Electron callback is an input event. Every `send` and every `res.status(..).json(..)` is an entry appended to an output log. Each module is built the same way:

- a state datatype;
- one specification function per handler, whose `ensures` state what the handler does;
- `Step` and `Run` over sequences of events, with lemmas about runs;
- a class with the source's variables as fields, whose methods (one per handler) are proved to reach exactly the state the specification function gives.

Modules:

- `Js` (js.dfy): the values that cross the IPC boundaries, and `Arg`, the argument a listener binds (`undefined` when the sender passed fewer).
- `Renderer` (renderer.dfy): the mediator.
- `ScrapeAndAddPage` (scrape_and_add_page.dfy): the controller, lines 27–86 of its file.
- `Pipeline` (pipeline.dfy): how the two are wired together.

`url.parse(x).href` is a library call. It enters the model as a parameter named `normalize`; nothing is assumed or proved about it. The controller applies it to a string (`string -> string`). The mediator applies it to whatever value its redirect listener bound (`Value -> Value`).

What the code does, where it is easy to misread:

- **Argument binding.** The controller sends `('createAndLoadWebview', 1, urlToScrape)` (appmodules/server/api/scrape/scrapeAndAddPage.js:69). The mediator's listener binds `(event, urlToScrape)` (appmodules/server/api/scrape/renderer.js:22). So the mediator tracks the number `1`, not the URL, and passes `1` to `setAttribute('src', …)` (line 29). The mediator takes every listener's arguments after `event` as a sequence and binds them by position. `Pipeline.ControllerUrlNeverReachesMediator` proves the consequence. Under `===` a number never equals a string or `undefined`, which are what a redirect's `oldURL` or a failure's `validatedURL` can be. So until the next message, the mediator counts no redirect and reports no load failure or redirect loop.
- **No success path.** The comment at scrapeAndAddPage.js:18-21 says the page data comes back to the controller. But the controller's `ipcMain` listeners for `returnDocDetails` and `returnDocDetailsError` are commented out (scrapeAndAddPage.js:192-208). So the controller model has no success path, and every response it can give is one of three 500 errors (`ScrapeAndAddPage.OneResponsePerRequest`).
- **Where URLs are normalized.** The comment at scrapeAndAddPage.js:29-36 says URLs are normalized so that the same page is not saved twice. The controller does so once at entry (line 37). The mediator tracks the value it is given as is (renderer.js:22, 65, 89), and normalizes only the new URL of a followed redirect (line 102).

## Model

| member | source | states |
|---|---|---|
| Renderer.Detach | appmodules/server/api/scrape/renderer.js:8-10 | `removeChild` of a child `w`: the result is shorter than the body. The helper also returns a body without `w` unchanged; the DOM would throw there instead, but no handler reaches that case from a valid state, and `Renderer.Mediator.RemoveWebview` requires `w` to be a child |
| Renderer.DetachMembers | appmodules/server/api/scrape/renderer.js:8-10 | the result holds exactly the body's elements other than `w` |
| Renderer.DetachCounts | appmodules/server/api/scrape/renderer.js:8-10 | every element other than `w` is kept as often as it occurred, and `w` not at all |
| Renderer.OnCreateAndLoad | appmodules/server/api/scrape/renderer.js:22-36 | Two log entries are sent. The counter is reset to 0. The first argument becomes the tracked URL and the `src`. A newly created element (not in the old body) becomes the body's only webview, unmuted: the old webview, if any, is removed before the new one is appended (line 121). The invariant is kept |
| Renderer.OnDomReady | appmodules/server/api/scrape/renderer.js:41-43 | mutes the live webview and changes nothing else |
| Renderer.OnDidFinishLoad | appmodules/server/api/scrape/renderer.js:49-55 | logs, then sends `sendPageData` to the live webview. No other state changes |
| Renderer.OnDidFailLoad | appmodules/server/api/scrape/renderer.js:64-76 | The listener's third positional argument is `validatedURL`. When it is the tracked value, the failure is reported on `webview-error` with the first three arguments, and the body is emptied. Nothing else changes: counter, tracked URL, `src`, muting, next identity. For any other value, nothing changes |
| Renderer.OnCrashed | appmodules/server/api/scrape/renderer.js:77-81 | sends `'webContents: crashed'` on `webview-error` and empties the body. Nothing else changes |
| Renderer.OnDidGetRedirectRequest | appmodules/server/api/scrape/renderer.js:88-110 | The positional arguments are `(oldURL, newURL)`. A non-matching `oldURL` changes nothing. A matching one increments the counter. Below 6, only the tracked URL changes: it becomes `normalize(newURL)`. At 6 it sends `'webContents: infinite redirect loop'` and empties the body. Apart from the counter, nothing else changes, the tracked URL included |
| Renderer.OnIpcMessage | appmodules/server/api/scrape/renderer.js:111-120 | Every channel empties the body and changes nothing else but the outbox. `returnDocDetails` forwards the first argument on `returnDocDetails`. `returnDocDetailsError` forwards the arguments on `webview-error`. Other channels forward nothing |
| Renderer.Step | appmodules/server/api/scrape/renderer.js:41-120 | Every handler keeps the invariant: at most one webview in the body, it is the live one, and its counter is at most 5. The outbox only grows |
| Renderer.Run | appmodules/server/api/scrape/renderer.js:20-122 | Every state a session of events reaches satisfies that invariant, and the outbox only grows |
| Renderer.DeliverableAppend | appmodules/server/api/scrape/renderer.js:20-122 | a sequence that can happen, followed by one that can happen from where it ends, can happen as a whole |
| Renderer.RunAppend | appmodules/server/api/scrape/renderer.js:20-122 | running two event sequences one after the other is running their concatenation |
| Renderer.FollowChain | appmodules/server/api/scrape/renderer.js:88-103 | A chain of matching redirects that keeps the count below 6 is followed. The tracked URL ends at the chain's normalized end and the counter grows by the chain's length. Nothing else changes |
| Renderer.FollowHop | appmodules/server/api/scrape/renderer.js:88-103 | one matching redirect below the limit moves the tracked URL to `normalize(newURL)` and counts it. Nothing else changes |
| Renderer.LoopHop | appmodules/server/api/scrape/renderer.js:88-108 | the matching redirect that brings the count to 6 empties the body and sends only the loop report. Nothing else changes but the counter |
| Renderer.SixthRedirectIsLoop | appmodules/server/api/scrape/renderer.js:88-108 | In a chain of matching redirects that brings the count to 6, the last hop is refused. The loop error is the only message sent, the webview is gone, and the tracked URL is where the previous hop led |
| Renderer.ForeignRedirectsChangeNothing | appmodules/server/api/scrape/renderer.js:88-89 | subresource redirects (old URL not the tracked one) leave the whole state unchanged: counter, URL, body and outbox |
| Renderer.UntrackableUrlIgnoresRedirectsAndFailures | appmodules/server/api/scrape/renderer.js:64-110 | Let the tracked value be neither a string nor `undefined`, and let the argument each event compares with it (a failure's `validatedURL`, a redirect's `oldURL`) be a string or absent; the other arguments, such as a numeric `errorCode`, are free. Then every run of redirects and load failures leaves the state unchanged |
| Renderer.UntrackableUrlStep | appmodules/server/api/scrape/renderer.js:41-120 | Under the same conditions, one webview event keeps the tracked value and the counter, and sends neither a load-failure report nor a loop report |
| Renderer.UntrackableUrlSticks | appmodules/server/api/scrape/renderer.js:41-120 | Under the same conditions, any run of webview events before the next message keeps the tracked value and the counter, and sends neither a load-failure report nor a loop report |
| Renderer.FiveRedirectsThenPageData | appmodules/server/api/scrape/renderer.js:22-121 | A URL arrives, then come five matching redirects, the load, and the page data. The mediator sends exactly two logs, a load log, `sendPageData` to the new webview, and the forwarded data. The webview is then gone, and the tracked URL is the fifth hop's normalized target |
| Renderer.CreateThenFollow | appmodules/server/api/scrape/renderer.js:22-103 | after the message and a chain of fewer than 6 redirects, the new webview is live, tracks the chain's end, and only the two logs were sent |
| Renderer.FinishThenReply | appmodules/server/api/scrape/renderer.js:49-120 | the load followed by `returnDocDetails` asks the webview for its data, forwards it, and tears the webview down |
| Renderer.StepResolutions | appmodules/server/api/scrape/renderer.js:49-120 | A webview event adds at most one error or page-data message. It adds none while the webview stays live |
| Renderer.AtMostOneResolution | appmodules/server/api/scrape/renderer.js:64-120 | Between two `createAndLoadWebview` messages, at most one error or page-data message is sent, for example nothing after a crash. While the webview is live, none has been sent |
| Renderer.Initial | appmodules/server/api/scrape/renderer.js:20-22 | before any message the body holds no webview and nothing has been sent |
| Renderer.Mediator.constructor | appmodules/server/api/scrape/renderer.js:20-22 | the mediator starts in the initial state with the given `normalize` |
| Renderer.Mediator.RemoveWebview | appmodules/server/api/scrape/renderer.js:8-10 | detaches the element from the body and changes nothing else |
| Renderer.Mediator.SendErrorToMainProcess | appmodules/server/api/scrape/renderer.js:12-14 | appends exactly one message on `webview-error` |
| Renderer.Mediator.SendLogToMainProcess | appmodules/server/api/scrape/renderer.js:16-18 | appends exactly one message on `webview-log` |
| Renderer.Mediator.CreateAndLoadWebview | appmodules/server/api/scrape/renderer.js:22-36 | updating the fields in place reaches exactly `OnCreateAndLoad` of the old state |
| Renderer.Mediator.DomReady | appmodules/server/api/scrape/renderer.js:41-43 | reaches exactly `OnDomReady` of the old state |
| Renderer.Mediator.DidFinishLoad | appmodules/server/api/scrape/renderer.js:49-55 | reaches exactly `OnDidFinishLoad` of the old state |
| Renderer.Mediator.DidFailLoad | appmodules/server/api/scrape/renderer.js:64-76 | reaches exactly `OnDidFailLoad` of the old state |
| Renderer.Mediator.Crashed | appmodules/server/api/scrape/renderer.js:77-81 | reaches exactly `OnCrashed` of the old state |
| Renderer.Mediator.DidGetRedirectRequest | appmodules/server/api/scrape/renderer.js:88-110 | reaches exactly `OnDidGetRedirectRequest` of the old state |
| Renderer.Mediator.IpcMessage | appmodules/server/api/scrape/renderer.js:111-120 | reaches exactly `OnIpcMessage` of the old state |
| ScrapeAndAddPage.Start | appmodules/server/api/scrape/scrapeAndAddPage.js:27-62 | The URL is `normalize(pageUrl)`, computed once at entry. The window is live and muted before any listener runs. Nothing has been sent or answered |
| ScrapeAndAddPage.OnClosed | appmodules/server/api/scrape/scrapeAndAddPage.js:48-52 | both references become null and the window is gone. No response is added, and nothing else changes |
| ScrapeAndAddPage.OnUnresponsive | appmodules/server/api/scrape/scrapeAndAddPage.js:53-56 | answers 500 `'BrowserWindow: unresponsive'` and destroys the window, whatever the `once` flags say |
| ScrapeAndAddPage.OnDidFinishLoad | appmodules/server/api/scrape/scrapeAndAddPage.js:64-70 | The first firing sends `createAndLoadWebview` with `(1, urlToScrape)`. Later firings change nothing. The window stays live |
| ScrapeAndAddPage.OnDidFailLoad | appmodules/server/api/scrape/scrapeAndAddPage.js:71-81 | The first firing answers 500 `'BrowserWindow webContents: did-fail-load'` and destroys the window, whatever `validatedURL` is. Later firings change nothing |
| ScrapeAndAddPage.OnCrashed | appmodules/server/api/scrape/scrapeAndAddPage.js:82-86 | The first firing answers 500 `'BrowserWindow webContents: crashed'` and destroys the window. Later firings change nothing |
| ScrapeAndAddPage.Step | appmodules/server/api/scrape/scrapeAndAddPage.js:48-86 | Every handler keeps the contents muted and the references consistent. It keeps the URL unchanged. Responses and sent messages only grow |
| ScrapeAndAddPage.Run | appmodules/server/api/scrape/scrapeAndAddPage.js:27-86 | every state a session reaches has those properties |
| ScrapeAndAddPage.StepSettled | appmodules/server/api/scrape/scrapeAndAddPage.js:48-86 | Every handler keeps the session invariant. There is at most one response, given only after the window is destroyed, and it is a 500 error. At most one message is sent, exactly when the `once` finish listener has fired |
| ScrapeAndAddPage.RunSettled | appmodules/server/api/scrape/scrapeAndAddPage.js:48-86 | that session invariant holds after any run |
| ScrapeAndAddPage.OneResponsePerRequest | appmodules/server/api/scrape/scrapeAndAddPage.js:27-86 | Whatever events arrive, the request gets at most one response, and it is one of the three 500 errors. At most one message is sent, `createAndLoadWebview` with `(1, normalize(pageUrl))` |
| ScrapeAndAddPage.Session.constructor | appmodules/server/api/scrape/scrapeAndAddPage.js:27-62 | the fields start as `Start` gives them |
| ScrapeAndAddPage.Session.Respond | appmodules/server/api/scrape/scrapeAndAddPage.js:54 | appends exactly one response |
| ScrapeAndAddPage.Session.Destroy | appmodules/server/api/scrape/scrapeAndAddPage.js:55 | the window is no longer live |
| ScrapeAndAddPage.Session.Closed | appmodules/server/api/scrape/scrapeAndAddPage.js:48-52 | reaches exactly `OnClosed` of the old state |
| ScrapeAndAddPage.Session.Unresponsive | appmodules/server/api/scrape/scrapeAndAddPage.js:53-56 | reaches exactly `OnUnresponsive` of the old state |
| ScrapeAndAddPage.Session.DidFinishLoad | appmodules/server/api/scrape/scrapeAndAddPage.js:64-70 | reaches exactly `OnDidFinishLoad` of the old state |
| ScrapeAndAddPage.Session.DidFailLoad | appmodules/server/api/scrape/scrapeAndAddPage.js:71-81 | reaches exactly `OnDidFailLoad` of the old state |
| ScrapeAndAddPage.Session.Crashed | appmodules/server/api/scrape/scrapeAndAddPage.js:82-86 | reaches exactly `OnCrashed` of the old state |
| Pipeline.ControllerUrlNeverReachesMediator | appmodules/server/api/scrape/renderer.js:22-29 | Take any state a controller session reaches, and the message it sent (scrapeAndAddPage.js:69). That message makes the mediator track the number 1 and pass 1 as `src`, never the controller's URL. The webview events up to the next message may be any events whose compared URL argument (a failure's `validatedURL`, a redirect's `oldURL`) is a string or absent; their other arguments, such as a numeric `errorCode`, are free. After them the mediator still tracks 1 with its counter at 0, and it has sent no load-failure or loop report. A run of only redirects and load failures leaves it unchanged |

## Left out

- `url.parse(x).href` is the parameter `normalize`, with no properties assumed. So the model does not show that it adds a trailing slash or that it is idempotent.
- `JSON.stringify` is not modelled. A payload records the value stringified (`Json`). The two template strings (did-fail-load details, preload error) record the values they interpolate (`FailLoadReport`, `PreloadErrorReport`), not their text.
- JavaScript numbers are modelled as integers (`Value.Num`). The numbers in the pipeline are the literal `1` and the integer `errorCode` of `did-fail-load`.
- Electron and DOM mechanics are not modelled:
  - the creation of `BrowserWindow` and `loadURL` of the container document;
  - `document.createElement` (a fresh identity stands in for it) and `setAttribute('preload', …)`;
  - the preload script webviewPreload.js, which is not part of this model. Its messages are input events with arbitrary channels and arguments.
- `querySelector('webview')` is modelled as the body's first webview. The body holds only webview elements.
- Two assumptions about Electron stand in for behaviour the handlers do not check.
  - A webview detached from the body emits no more events. So its events are only delivered while it is the live one (`Renderer.Handles`, and the `requires` of each handler). Otherwise a late `crashed`, a matching `did-fail-load`, a further matching redirect or an `ipc-message` would still send its message before `removeWebview(null)` throws.
  - A destroyed window emits nothing but `closed` (`ScrapeAndAddPage.Handles`). Otherwise an `unresponsive` after `destroy()` would answer a second time. The controller's references stay non-null after `destroy()` until `closed`.
  - `Renderer.AtMostOneResolution` and `ScrapeAndAddPage.OneResponsePerRequest` hold under these assumptions only.
- Renderer.OnDidFailLoad and Renderer.OnDidGetRedirectRequest read `validatedURL`, `oldURL` and `newURL` from the listener's positional arguments after `event`, as renderer.js:64 and 88 declare them. If Electron's webview delivers them only as fields of the single event object, those parameters are `undefined`: the case `args == []`. Then a failure or redirect matches only an `undefined` tracked value. The model covers that case but does not decide which delivery Electron uses.
- Renderer.OnDidFailLoad and Renderer.OnDidGetRedirectRequest model `===` as structural equality on `Value`. For strings, numbers and `undefined` that is what `===` does. For arrays and objects, `===` compares identity, and IPC delivers fresh ones. So a tracked object and an equal-looking `validatedURL` or `oldURL` object would match in the model but not in the source. The live wiring never tracks an array or object.
- Renderer.OnDidGetRedirectRequest applies `normalize` to whatever `newURL` was bound. `url.parse` throws on a value that is not a string. There the source has already incremented the counter and throws before updating `urlToScrape` (renderer.js:90, 102), while the model moves the tracked value to `normalize(newURL)`.
- `src` records the value passed to `setAttribute('src', …)`, not the attribute's string conversion. `setAttribute('src', 1)` stores the string `"1"`.
- In Electron, `destroy()` is followed by a `closed` event. The model keeps `closed` as a separate event that may or may not follow.
- `console.*`, `devMode`, `show` and `openDevTools` are diagnostics only and are not modelled. The mediator's `sendLogToMainProcess` entries are recorded with their data.
- scrapeAndAddPage.js:105-210 is commented-out code and is not modelled: the direct-load path and the `ipcMain` result listeners. `addPage` is referenced only there and is not part of this model.
- appmodules/electron/initTrayMenu.js (tray menu, settings window) is user interface with no state logic here, and is not modelled.
- Concurrent scrape sessions and asynchronous IPC delivery are not modelled. One session is one sequence of events.
- The source has no timeouts or cancellation, and neither does the model.
