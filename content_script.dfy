/**
 * The content script (src/content/content-script.ts): it creates the
 * virtualiser, checks every second (and on `popstate`) whether the page's URL
 * changed and resets the virtualiser when it did, and answers the
 * background's messages. Its top-level statements are the constructor of
 * `ContentScript`.
 */
module ContentScript {
  import opened Wrappers
  import opened Browser
  import opened Config
  import LifeCycle

  /** A call the script makes on the virtualiser. */
  datatype VirtualiserCall = ResetVirtualiser | ToggleOverlay

  /**
   * The virtualiser (src/managers/Virtualiser.ts is not part of this model):
   * it records the calls it receives.
   */
  class Virtualiser {
    var calls: seq<VirtualiserCall>

    constructor ()
      ensures calls == []
    {
      calls := [];
    }

    method ResetVirtualiser()
      modifies this
      ensures calls == old(calls) + [VirtualiserCall.ResetVirtualiser]
    {
      calls := calls + [VirtualiserCall.ResetVirtualiser];
    }

    method ToggleOverlay()
      modifies this
      ensures calls == old(calls) + [VirtualiserCall.ToggleOverlay]
    {
      calls := calls + [VirtualiserCall.ToggleOverlay];
    }
  }

  /** The body of a response: `{ ok }`. */
  datatype Response = Response(ok: bool)

  /** The `sendResponse` callback of one message: the responses sent through it. */
  class ResponseChannel {
    var sent: seq<Response>

    constructor ()
      ensures sent == []
    {
      sent := [];
    }

    method Send(r: Response)
      modifies this
      ensures sent == old(sent) + [r]
    {
      sent := sent + [r];
    }
  }

  /** A runtime message; `action` is `None` when the request has no string action. */
  datatype Request = Request(action: Option<string>)

  /** A cleanup the script registers. */
  datatype ScriptCleanup =
    | DestroyVirtualiser               // `virtualiser.destroy()`
    | ClearUrlInterval(id: nat)       // `clearInterval(id)`
    | RemovePopstateListener
    | RemoveMessageListener

  /** The remembered URL after one check, and whether the virtualiser was reset. */
  function CheckOnce(remembered: string, href: string): (r: (string, bool))
    ensures r.0 == href
    ensures r.1 <==> href != remembered
  {
    if href != remembered then (href, true) else (remembered, false)
  }

  /** The number of resets over a series of checks that observe the hrefs in order. */
  function Resets(remembered: string, hrefs: seq<string>): nat
    decreases |hrefs|
  {
    if hrefs == [] then 0
    else
      var (next, reset) := CheckOnce(remembered, hrefs[0]);
      (if reset then 1 else 0) + Resets(next, hrefs[1..])
  }

  /**
   * Checks that keep seeing the same href reset at most once: once when it
   * differs from the remembered URL, never when it does not.
   */
  lemma {:induction false} StableHrefResetsAtMostOnce(remembered: string, href: string, n: nat)
    decreases n
    ensures Resets(remembered, seq(n, _ => href)) == if n > 0 && href != remembered then 1 else 0
  {
    if n > 0 {
      var hs := seq(n, _ => href);
      assert hs[0] == href;
      assert hs[1..] == seq(n - 1, _ => href);
      StableHrefResetsAtMostOnce(href, href, n - 1);
    }
  }

  /**
   * A series of checks resets at most once per check, and not at all exactly
   * when every href it sees is the remembered URL.
   */
  lemma {:induction false} ResetsBounds(remembered: string, hrefs: seq<string>)
    decreases |hrefs|
    ensures Resets(remembered, hrefs) <= |hrefs|
    ensures Resets(remembered, hrefs) == 0 <==> forall i :: 0 <= i < |hrefs| ==> hrefs[i] == remembered
  {
    if hrefs != [] {
      ResetsBounds(hrefs[0], hrefs[1..]);
      if hrefs[0] == remembered && forall i :: 0 <= i < |hrefs[1..]| ==> hrefs[1..][i] == hrefs[0] {
        forall i | 0 <= i < |hrefs| ensures hrefs[i] == remembered {
          if i > 0 {
            assert hrefs[i] == hrefs[1..][i - 1];
          }
        }
      }
      if forall i :: 0 <= i < |hrefs| ==> hrefs[i] == remembered {
        assert hrefs[0] == remembered;
        forall i | 0 <= i < |hrefs[1..]| ensures hrefs[1..][i] == hrefs[0] {
          assert hrefs[1..][i] == hrefs[i + 1];
        }
      }
    }
  }

  class ContentScript {
    const virtualiser: Virtualiser
    const lifeCycleManager: LifeCycle.LifecycleManager<ScriptCleanup>
    /** The URL last seen (`currentUrl`). */
    var currentUrl: string
    /** The interval that runs `checkURL` every second. */
    const urlIntervalId: nat
    var popstateListening: bool
    var messageListening: bool

    /**
     * The script's top level: creates the virtualiser, remembers the URL,
     * starts the URL check, listens to `popstate` and to runtime messages,
     * and registers one cleanup for each, in that order.
     */
    constructor (page: Page)
      requires page.Valid()
      modifies page`intervals, page`nextTimerId
      ensures page.Valid()
      ensures fresh(virtualiser) && virtualiser.calls == []
      ensures fresh(lifeCycleManager) && lifeCycleManager.invoked == []
      ensures currentUrl == page.href
      ensures urlIntervalId !in old(page.intervals) && page.intervals == old(page.intervals) + {urlIntervalId}
      ensures popstateListening && messageListening
      ensures lifeCycleManager.cleanupFns
              == [DestroyVirtualiser, ClearUrlInterval(urlIntervalId), RemovePopstateListener, RemoveMessageListener]
    {
      var lcm := new LifeCycle.LifecycleManager();
      virtualiser := new Virtualiser();
      lcm.Register(DestroyVirtualiser);
      currentUrl := page.href;
      var id := page.SetInterval();
      urlIntervalId := id;
      lcm.Register(ClearUrlInterval(id));
      popstateListening := true;
      lcm.Register(RemovePopstateListener);
      messageListening := true;
      lcm.Register(RemoveMessageListener);
      lifeCycleManager := lcm;
    }

    /** `checkURL`: resets the virtualiser exactly when the href changed, and remembers the href. */
    method CheckURL(page: Page)
      modifies this`currentUrl, virtualiser
      ensures (currentUrl, virtualiser.calls != old(virtualiser.calls)) == CheckOnce(old(currentUrl), page.href)
      ensures virtualiser.calls
              == old(virtualiser.calls) + (if page.href != old(currentUrl) then [VirtualiserCall.ResetVirtualiser] else [])
    {
      if page.href != currentUrl {
        currentUrl := page.href;
        virtualiser.ResetVirtualiser();
      }
    }

    /**
     * `handleMessages`: toggles the overlay exactly for the toggle action,
     * sends exactly one response saying whether it did, and keeps the
     * channel open.
     */
    method HandleMessages(request: Request, channel: ResponseChannel, cfg: Config) returns (keepOpen: bool)
      modifies virtualiser, channel
      ensures keepOpen
      ensures channel.sent == old(channel.sent) + [Response(request.action == Some(cfg.toggleDebugOverlay))]
      ensures virtualiser.calls
              == old(virtualiser.calls)
                 + (if request.action == Some(cfg.toggleDebugOverlay) then [VirtualiserCall.ToggleOverlay] else [])
    {
      if request.action == Some(cfg.toggleDebugOverlay) {
        virtualiser.ToggleOverlay();
        channel.Send(Response(true));
      } else {
        channel.Send(Response(false));
      }
      return true;
    }
  }
}
