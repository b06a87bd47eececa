/**
 * NativoServerProxy: holds the last Nativo bid response and decides, against a Prebid
 * response, which one wins.  The network request itself (NativoBidRequester) is not part of
 * this model: issuing the request and receiving its completion are two separate calls here,
 * and the requester's shouldRenderImmediately answer is an input of the completion.
 */
module ServerProxy {
  import opened Wrappers
  import opened Bids

  /** getBidFromResponse: the response's winning bid, null for a null response. */
  function GetBidFromResponse(response: Option<BidResponse>): (r: Option<Bid>)
    ensures response.None? ==> r.None?
    ensures response.Some? ==> r == response.value.GetWinningBid()
  {
    if response.None? then None else response.value.GetWinningBid()
  }

  /** getBidPrice: the winning bid's price, 0.0 when the response or its winning bid is missing. */
  function GetBidPrice(response: Option<BidResponse>): (r: real)
    ensures GetBidFromResponse(response).None? ==> r == 0.0
    ensures GetBidFromResponse(response).Some? ==> r == GetBidFromResponse(response).value.price
  {
    var bid := GetBidFromResponse(response);
    if bid.Some? then bid.value.price else 0.0
  }

  /** The arguments the completion hands to the caller's callback. */
  datatype CallbackArgs = CallbackArgs(bidResponse: Option<BidResponse>, shouldRenderImmediately: bool)

  class NativoServerProxy {
    var nativoBidResponse: Option<BidResponse>
    /** Every callback invocation so far, in order. */
    ghost var callbacks: seq<CallbackArgs>

    constructor ()
      ensures nativoBidResponse.None? && callbacks == []
    {
      nativoBidResponse := None;
      callbacks := [];
    }

    /** requestNativoBid, up to the request: the stored response is cleared first. */
    method RequestNativoBid()
      modifies this`nativoBidResponse
      ensures nativoBidResponse.None?
    {
      nativoBidResponse := None;
    }

    /**
     * The request's completion: the response (or null) is stored and the callback is invoked
     * once, with (null, false) when there is no response.
     */
    method OnBidsResponse(response: Option<BidResponse>, renderImmediately: bool) returns (args: CallbackArgs)
      modifies this`nativoBidResponse, this`callbacks
      ensures nativoBidResponse == response
      ensures args.bidResponse == response
      ensures args.shouldRenderImmediately <==> response.Some? && renderImmediately
      ensures callbacks == old(callbacks) + [args]
    {
      nativoBidResponse := response;
      if response.Some? {
        args := CallbackArgs(response, renderImmediately);
      } else {
        args := CallbackArgs(None, false);
      }
      callbacks := callbacks + [args];
    }

    /** decideWinner: the stored Nativo response wins ties; a missing side loses to the other. */
    function DecideWinner(prebidBidResponse: Option<BidResponse>): (r: Option<BidResponse>)
      reads this`nativoBidResponse
      ensures r == prebidBidResponse || r == nativoBidResponse
      ensures prebidBidResponse.None? ==> r == nativoBidResponse
      ensures prebidBidResponse.Some? && nativoBidResponse.None? ==> r == prebidBidResponse
      ensures prebidBidResponse.Some? && nativoBidResponse.Some? ==>
        (r == nativoBidResponse <==> GetBidPrice(nativoBidResponse) >= GetBidPrice(prebidBidResponse))
      ensures r.Some? <==> prebidBidResponse.Some? || nativoBidResponse.Some?
    {
      if prebidBidResponse.None? then nativoBidResponse
      else if nativoBidResponse.None? then prebidBidResponse
      else
        var prebidPrice := GetBidPrice(prebidBidResponse);
        var nativoPrice := GetBidPrice(nativoBidResponse);
        if nativoPrice >= prebidPrice then nativoBidResponse else prebidBidResponse
    }
  }

  /** With both responses present, the winner's price is at least the other's. */
  lemma WinnerPriceIsMaximal(proxy: NativoServerProxy, prebid: BidResponse)
    requires proxy.nativoBidResponse.Some?
    ensures GetBidPrice(proxy.DecideWinner(Some(prebid))) >= GetBidPrice(Some(prebid))
    ensures GetBidPrice(proxy.DecideWinner(Some(prebid))) >= GetBidPrice(proxy.nativoBidResponse)
  {
  }
}
