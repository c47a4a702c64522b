/** How the controller and the mediator fit together, as the source wires them. */
module Pipeline {
  import opened Js
  import Renderer
  import ScrapeAndAddPage

  /** The controller sends `('createAndLoadWebview', 1, urlToScrape)`. The
      mediator's listener binds `(event, urlToScrape)`, so what it tracks, and
      passes to `setAttribute('src', …)`, is the number 1, never the
      controller's URL. A number is not a URL a webview listener can bind, so
      until the next `createAndLoadWebview` message the mediator never matches
      a redirect or a load failure of its webview against what it tracks:
      it keeps tracking 1, counts no redirect, and never reports a load
      failure or a redirect loop. A run made only of redirects and load
      failures leaves it exactly as the message left it. The controller
      state is any state a session reaches (`ScrapeAndAddPage.RunSettled`),
      whose URL is `normalize(pageUrl)` (`ScrapeAndAddPage.Start`). */
  lemma ControllerUrlNeverReachesMediator(
    normalize: Value -> Value, c: ScrapeAndAddPage.SessionState, i: nat,
    m: Renderer.MediatorState, evs: seq<Renderer.Event>)
    requires ScrapeAndAddPage.Settled(c) && i < |c.sent|
    requires Renderer.Valid(m)
    requires forall k :: 0 <= k < |evs| ==> !evs[k].CreateAndLoad? && Renderer.UrlArgs(evs[k])
    requires Renderer.Deliverable(normalize, Renderer.OnCreateAndLoad(m, c.sent[i].args), evs)
    ensures c.sent[i].channel == ScrapeAndAddPage.CreateAndLoadWebview
    ensures Renderer.OnCreateAndLoad(m, c.sent[i].args).urlToScrape == Num(1)
    ensures Renderer.OnCreateAndLoad(m, c.sent[i].args).src == Num(1)
    ensures Renderer.OnCreateAndLoad(m, c.sent[i].args).urlToScrape != Str(c.urlToScrape)
    ensures var r := Renderer.Run(normalize, Renderer.OnCreateAndLoad(m, c.sent[i].args), evs);
      && r.urlToScrape == Num(1) && r.numTimesRedirected == 0
      && forall k :: |m.outbox| <= k < |r.outbox| ==> !Renderer.ReportsTrackedUrl(r.outbox[k])
    ensures (forall k :: 0 <= k < |evs| ==> evs[k].DidGetRedirectRequest? || evs[k].DidFailLoad?) ==>
      Renderer.Run(normalize, Renderer.OnCreateAndLoad(m, c.sent[i].args), evs) == Renderer.OnCreateAndLoad(m, c.sent[i].args)
  {
    assert c.sent[i].args == [Num(1), Str(c.urlToScrape)];
    ghost var m1 := Renderer.OnCreateAndLoad(m, c.sent[i].args);
    assert m1.outbox[..|m.outbox|] == m.outbox;
    forall k | |m.outbox| <= k < |m1.outbox|
      ensures !Renderer.ReportsTrackedUrl(m1.outbox[k])
    {
    }
    Renderer.UntrackableUrlSticks(normalize, m1, evs);
    if forall k :: 0 <= k < |evs| ==> evs[k].DidGetRedirectRequest? || evs[k].DidFailLoad? {
      Renderer.UntrackableUrlIgnoresRedirectsAndFailures(normalize, m1, evs);
    }
  }
}
