/**
 * NativoStandaloneBannerHandler: tells the banner's listener which SDK won.  The listener
 * is a foreign object; it is named by an id, and its onNativoSdkWin / onPrebidSdkWin calls
 * are recorded in a log.
 */
module BannerHandler {
  import opened Wrappers
  import opened Bids
  import ServerProxy

  type ListenerId = nat

  datatype SdkWin = NativoSdkWin | PrebidSdkWin

  datatype WinEvent = WinEvent(listener: ListenerId, win: SdkWin)

  /**
   * requestAdWithBidResponses' comparison: each side's price is `response?.winningBid?.price
   * ?: 0.0`, the same expression as the proxy's getBidPrice, and Nativo wins ties.
   */
  function BannerWinner(prebidResponse: Option<BidResponse>, nativoResponse: Option<BidResponse>): (r: SdkWin)
    ensures r == NativoSdkWin <==> ServerProxy.GetBidPrice(nativoResponse) >= ServerProxy.GetBidPrice(prebidResponse)
  {
    var prebidPrice := ServerProxy.GetBidPrice(prebidResponse);
    var nativoPrice := ServerProxy.GetBidPrice(nativoResponse);
    if nativoPrice >= prebidPrice then NativoSdkWin else PrebidSdkWin
  }

  /** The callback `listener?.onXxxSdkWin()` makes: one event with a listener, none without. */
  function Reported(listener: Option<ListenerId>, win: SdkWin): (r: seq<WinEvent>)
    ensures |r| == if listener.Some? then 1 else 0
    ensures listener.Some? ==> r[0] == WinEvent(listener.value, win)
  {
    if listener.Some? then [WinEvent(listener.value, win)] else []
  }

  class NativoStandaloneBannerHandler {
    var bannerEventListener: Option<ListenerId>
    /** Every listener callback so far, in order. */
    ghost var events: seq<WinEvent>

    constructor ()
      ensures bannerEventListener.None? && events == []
    {
      bannerEventListener := None;
      events := [];
    }

    /** Replaces any previous listener. */
    method SetBannerEventListener(bannerViewListener: ListenerId)
      modifies this`bannerEventListener
      ensures bannerEventListener == Some(bannerViewListener)
    {
      bannerEventListener := Some(bannerViewListener);
    }

    /** A request with a single bid always reports a Prebid win, whatever the bid. */
    method RequestAdWithBid(bid: Option<Bid>)
      modifies this`events
      ensures events == old(events) + Reported(bannerEventListener, PrebidSdkWin)
    {
      if bannerEventListener.Some? {
        events := events + [WinEvent(bannerEventListener.value, PrebidSdkWin)];
      }
    }

    method RequestAdWithBidResponses(prebidResponse: Option<BidResponse>, nativoResponse: Option<BidResponse>)
      modifies this`events
      ensures events == old(events) + Reported(bannerEventListener, BannerWinner(prebidResponse, nativoResponse))
    {
      var prebidPrice := ServerProxy.GetBidPrice(prebidResponse);
      var nativoPrice := ServerProxy.GetBidPrice(nativoResponse);
      if nativoPrice >= prebidPrice {
        if bannerEventListener.Some? {
          events := events + [WinEvent(bannerEventListener.value, NativoSdkWin)];
        }
      } else {
        if bannerEventListener.Some? {
          events := events + [WinEvent(bannerEventListener.value, PrebidSdkWin)];
        }
      }
    }
  }

  /** With no responses at all both prices are 0.0, so Nativo wins. */
  lemma NoResponsesNativoWins()
    ensures BannerWinner(None, None) == NativoSdkWin
  {
  }

  /**
   * With both responses present the banner handler and the proxy's decideWinner agree:
   * the handler reports a Nativo win exactly when decideWinner returns the stored Nativo response.
   */
  lemma HandlerAgreesWithDecideWinner(proxy: ServerProxy.NativoServerProxy, prebid: BidResponse)
    requires proxy.nativoBidResponse.Some?
    ensures BannerWinner(Some(prebid), proxy.nativoBidResponse) == NativoSdkWin
        <==> proxy.DecideWinner(Some(prebid)) == proxy.nativoBidResponse
  {
  }
}
