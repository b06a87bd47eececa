/**
 * NativoBidResponse: a Prebid bid response that picks its own winner (the highest-priced bid
 * over all seatbids, the first one on a tie) and writes the Nativo targeting keys and the
 * renderer meta into that bid.  Prices are Kotlin Doubles, modelled as reals (no NaN, no
 * infinities); Double.toString is kept abstract as a function handed to the constructor.
 */
module Bids {
  import opened Wrappers

  /** A Prebid bid: price and size are fixed by the parsed JSON; bid.prebid's two maps are updated in place. */
  class Bid {
    const price: real
    const width: int
    const height: int
    const jsonString: Option<string>
    var targeting: map<string, string>
    var meta: map<string, string>

    constructor (price: real, width: int, height: int, jsonString: Option<string>)
      ensures this.price == price && this.width == width && this.height == height
      ensures this.jsonString == jsonString
      ensures targeting == map[] && meta == map[]
    {
      this.price, this.width, this.height, this.jsonString := price, width, height, jsonString;
      targeting, meta := map[], map[];
    }
  }

  // ---------------------------------------------------------------------------
  // Winner selection
  // ---------------------------------------------------------------------------

  /** The bids of all seatbids in iteration order: seatbid by seatbid, bid by bid. */
  function AllBids(seatbids: seq<seq<Bid>>): (r: seq<Bid>)
  {
    if seatbids == [] then []
    else AllBids(seatbids[..|seatbids| - 1]) + seatbids[|seatbids| - 1]
  }

  /** The flattening holds every bid of every seatbid and nothing else. */
  lemma {:induction false} AllBidsMembers(seatbids: seq<seq<Bid>>)
    ensures forall s, i :: 0 <= s < |seatbids| && 0 <= i < |seatbids[s]| ==> seatbids[s][i] in AllBids(seatbids)
    ensures forall i :: 0 <= i < |AllBids(seatbids)| ==>
      exists s :: 0 <= s < |seatbids| && AllBids(seatbids)[i] in seatbids[s]
  {
    if seatbids != [] {
      var init := seatbids[..|seatbids| - 1];
      AllBidsMembers(init);
      forall i | 0 <= i < |AllBids(seatbids)|
        ensures exists s :: 0 <= s < |seatbids| && AllBids(seatbids)[i] in seatbids[s]
      {
        assert AllBids(seatbids) == AllBids(init) + seatbids[|seatbids| - 1];
        if i < |AllBids(init)| {
          var s :| 0 <= s < |init| && AllBids(init)[i] in init[s];
          assert AllBids(seatbids)[i] == AllBids(init)[i] && seatbids[s] == init[s];
          assert 0 <= s < |seatbids| && AllBids(seatbids)[i] in seatbids[s];
        } else {
          var last := |seatbids| - 1;
          assert AllBids(seatbids)[i] == seatbids[last][i - |AllBids(init)|];
          assert 0 <= last < |seatbids| && AllBids(seatbids)[i] in seatbids[last];
        }
      }
      forall s, i | 0 <= s < |seatbids| && 0 <= i < |seatbids[s]| ensures seatbids[s][i] in AllBids(seatbids) {
        if s < |init| {
          assert seatbids[s] == init[s];
        }
      }
    } else {
      assert AllBids(seatbids) == [];
    }
  }

  lemma AllBidsSnoc(seatbids: seq<seq<Bid>>, s: int)
    requires 0 <= s < |seatbids|
    ensures AllBids(seatbids[..s + 1]) == AllBids(seatbids[..s]) + seatbids[s]
  {
    assert seatbids[..s + 1][..s] == seatbids[..s];
  }

  function Prices(bids: seq<Bid>): (r: seq<real>)
    ensures |r| == |bids| && forall i :: 0 <= i < |bids| ==> r[i] == bids[i].price
  {
    seq(|bids|, i requires 0 <= i < |bids| => bids[i].price)
  }

  /**
   * Index of the first maximum, or -1 for no prices: the scan keeps the held index unless a
   * later price is strictly greater.
   */
  function WinnerIndex(prices: seq<real>): (r: int)
    ensures -1 <= r < |prices|
    ensures r == -1 <==> prices == []
    ensures r >= 0 ==> forall j :: 0 <= j < |prices| ==> prices[j] <= prices[r]
    ensures r >= 0 ==> forall j :: 0 <= j < r ==> prices[j] < prices[r]
  {
    if prices == [] then -1
    else
      var k := WinnerIndex(prices[..|prices| - 1]);
      if k < 0 || prices[|prices| - 1] > prices[k] then |prices| - 1 else k
  }

  /** The first maximum is the only index that is a maximum with every earlier price strictly below it. */
  lemma FirstMaximumIsWinnerIndex(prices: seq<real>, k: int)
    requires 0 <= k < |prices|
    requires forall j :: 0 <= j < |prices| ==> prices[j] <= prices[k]
    requires forall j :: 0 <= j < k ==> prices[j] < prices[k]
    ensures WinnerIndex(prices) == k
  {
  }

  /** selectWinningBid's answer: the first highest-priced bid, or none without bids. */
  function Winner(bids: seq<Bid>): (r: Option<Bid>)
    ensures r.None? <==> bids == []
  {
    var k := WinnerIndex(Prices(bids));
    if k < 0 then None else Some(bids[k])
  }

  /** The winner is a highest-priced bid and every bid before it is strictly cheaper. */
  lemma WinnerIsFirstMaximum(bids: seq<Bid>)
    ensures Winner(bids).Some? ==>
      exists k :: 0 <= k < |bids| && bids[k] == Winner(bids).value
        && (forall j :: 0 <= j < |bids| ==> bids[j].price <= bids[k].price)
        && (forall j :: 0 <= j < k ==> bids[j].price < bids[k].price)
  {
    var k := WinnerIndex(Prices(bids));
    if k >= 0 {
      assert bids[k] == Winner(bids).value;
    }
  }

  /** One more bid in the scan: it takes over exactly when it is strictly dearer than the held winner. */
  lemma WinnerSnoc(bids: seq<Bid>, b: Bid)
    ensures Winner(bids + [b])
         == if Winner(bids).None? || b.price > Winner(bids).value.price then Some(b) else Winner(bids)
  {
    assert Prices(bids + [b])[..|bids|] == Prices(bids);
  }

  /** The inner loop's step: scanning bids[b] after `scanned` and bids[..b]. */
  lemma ScanStep(scanned: seq<Bid>, bids: seq<Bid>, b: int)
    requires 0 <= b < |bids|
    ensures Winner(scanned + bids[..b + 1])
         == var w := Winner(scanned + bids[..b]);
            if w.None? || bids[b].price > w.value.price then Some(bids[b]) else w
  {
    WinnerSnoc(scanned + bids[..b], bids[b]);
    assert scanned + bids[..b + 1] == scanned + bids[..b] + [bids[b]];
  }

  /** The nested loop over seatbids and their bids; a missing winner stands for NEGATIVE_INFINITY. */
  method SelectWinningBid(seatbids: seq<seq<Bid>>) returns (winningBid: Option<Bid>)
    ensures winningBid == Winner(AllBids(seatbids))
  {
    winningBid := None;
    var winningPrice: real := 0.0;
    for s := 0 to |seatbids|
      invariant winningBid == Winner(AllBids(seatbids[..s]))
      invariant winningBid.Some? ==> winningPrice == winningBid.value.price
    {
      var bids := seatbids[s];
      ghost var scanned := AllBids(seatbids[..s]);
      assert scanned + bids[..0] == scanned;
      for b := 0 to |bids|
        invariant winningBid == Winner(scanned + bids[..b])
        invariant winningBid.Some? ==> winningPrice == winningBid.value.price
      {
        ScanStep(scanned, bids, b);
        if winningBid.None? || bids[b].price > winningPrice {
          winningBid := Some(bids[b]);
          winningPrice := bids[b].price;
        }
      }
      assert bids[..|bids|] == bids;
      AllBidsSnoc(seatbids, s);
    }
    assert seatbids[..|seatbids|] == seatbids;
  }

  /** The selected bid is a bid of some seatbid, and there is none exactly when every seatbid is empty. */
  lemma WinnerOfSeatbids(seatbids: seq<seq<Bid>>)
    ensures Winner(AllBids(seatbids)).None? <==> forall s :: 0 <= s < |seatbids| ==> seatbids[s] == []
    ensures Winner(AllBids(seatbids)).Some? ==>
      exists s :: 0 <= s < |seatbids| && Winner(AllBids(seatbids)).value in seatbids[s]
    ensures Winner(AllBids(seatbids)).Some? ==>
      forall s, i :: 0 <= s < |seatbids| && 0 <= i < |seatbids[s]| ==>
        seatbids[s][i].price <= Winner(AllBids(seatbids)).value.price
  {
    AllBidsMembers(seatbids);
    var all := AllBids(seatbids);
    WinnerIsFirstMaximum(all);
    if Winner(all).Some? {
      var k :| 0 <= k < |all| && all[k] == Winner(all).value
        && (forall j :: 0 <= j < |all| ==> all[j].price <= all[k].price);
      forall s, i | 0 <= s < |seatbids| && 0 <= i < |seatbids[s]|
        ensures seatbids[s][i].price <= Winner(all).value.price
      {
        var j :| 0 <= j < |all| && all[j] == seatbids[s][i];
      }
    }
  }

  // ---------------------------------------------------------------------------
  // Decimal text for the size string
  // ---------------------------------------------------------------------------

  predicate IsDigits(s: string)
  {
    forall i :: 0 <= i < |s| ==> '0' <= s[i] <= '9'
  }

  /** Kotlin's decimal Int.toString for a non-negative value: no sign, no leading zeros. */
  function NatToString(n: nat): (r: string)
    ensures |r| >= 1 && IsDigits(r)
    ensures |r| > 1 ==> r[0] != '0'
  {
    if n < 10 then ["0123456789"[n]]
    else NatToString(n / 10) + ["0123456789"[n % 10]]
  }

  function IntToString(n: int): (r: string)
    ensures |r| >= 1
  {
    if n < 0 then "-" + NatToString(-n) else NatToString(n)
  }

  function ParseNat(s: string): (n: nat)
    requires IsDigits(s)
  {
    if s == [] then 0
    else ParseNat(s[..|s| - 1]) * 10 + (s[|s| - 1] as int - '0' as int)
  }

  function ParseInt(s: string): int
  {
    if |s| > 0 && s[0] == '-' && IsDigits(s[1..]) then -(ParseNat(s[1..]) as int)
    else if IsDigits(s) then ParseNat(s)
    else 0
  }

  lemma {:induction false} NatToStringRoundTrip(n: nat)
    ensures ParseNat(NatToString(n)) == n
  {
    if n >= 10 {
      NatToStringRoundTrip(n / 10);
      var r := NatToString(n);
      assert r[..|r| - 1] == NatToString(n / 10);
      assert r[|r| - 1] as int - '0' as int == n % 10;
    }
  }

  lemma NegativeTextRoundTrip(m: nat)
    ensures ParseInt("-" + NatToString(m)) == -(m as int)
  {
    var digits := NatToString(m);
    NatToStringRoundTrip(m);
    var s := "-" + digits;
    assert s[0] == '-' && s[1..] == digits;
  }

  lemma NonNegativeTextRoundTrip(m: nat)
    ensures ParseInt(NatToString(m)) == m
  {
    var s := NatToString(m);
    NatToStringRoundTrip(m);
    assert '0' <= s[0] <= '9';
  }

  /** The decimal text of an int reads back as that int. */
  lemma IntToStringRoundTrip(n: int)
    ensures ParseInt(IntToString(n)) == n
  {
    var s := IntToString(n);
    if n < 0 {
      var m: nat := -n;
      NegativeTextRoundTrip(m);
      assert s == "-" + NatToString(m);
    } else {
      var m: nat := n;
      NonNegativeTextRoundTrip(m);
      assert s == NatToString(m);
    }
  }

  /** The "${width}x${height}" size string. */
  function SizeText(width: int, height: int): (r: string)
    ensures |r| == |IntToString(width)| + 1 + |IntToString(height)|
    ensures r[|IntToString(width)|] == 'x'
    ensures r[..|IntToString(width)|] == IntToString(width)
    ensures r[|IntToString(width)| + 1..] == IntToString(height)
  {
    IntToString(width) + "x" + IntToString(height)
  }

  // ---------------------------------------------------------------------------
  // Targeting and renderer meta
  // ---------------------------------------------------------------------------

  const TargetingKeys: set<string> :=
    {"hb_env", "hb_env_nativo", "hb_size", "hb_size_nativo",
     "hb_bidder", "hb_bidder_nativo", "hb_pb", "hb_pb_nativo"}

  /** NativoPrebidRenderer.NAME and VERSION. */
  const RendererName: string := "NativoRenderer"
  const RendererVersion: string := "1.0.0"

  /** The eight entries applyTargeting writes, each key in its plain and its _nativo form. */
  function NativoTargeting(width: int, height: int, priceText: string): (r: map<string, string>)
    ensures r.Keys == TargetingKeys
    ensures r["hb_env"] == r["hb_env_nativo"] == "mobile-app"
    ensures r["hb_bidder"] == r["hb_bidder_nativo"] == "nativo"
    ensures r["hb_size"] == r["hb_size_nativo"] == SizeText(width, height)
    ensures r["hb_pb"] == r["hb_pb_nativo"] == priceText
  {
    map["hb_env" := "mobile-app", "hb_env_nativo" := "mobile-app",
        "hb_size" := SizeText(width, height), "hb_size_nativo" := SizeText(width, height),
        "hb_bidder" := "nativo", "hb_bidder_nativo" := "nativo",
        "hb_pb" := priceText, "hb_pb_nativo" := priceText]
  }

  /** Writing the targeting sets exactly the eight keys and leaves every other entry as it was. */
  lemma TargetingTouchesOnlyItsKeys(before: map<string, string>, width: int, height: int, priceText: string)
    ensures (before + NativoTargeting(width, height, priceText)).Keys == before.Keys + TargetingKeys
    ensures forall k :: k in before && k !in TargetingKeys ==>
      (before + NativoTargeting(width, height, priceText))[k] == before[k]
    ensures forall k :: k in TargetingKeys ==>
      (before + NativoTargeting(width, height, priceText))[k] == NativoTargeting(width, height, priceText)[k]
  {
  }

  /** The eight writes in source order amount to merging NativoTargeting into the map. */
  lemma TargetingWrites(m: map<string, string>, size: string, price: string, width: int, height: int)
    requires size == SizeText(width, height)
    ensures m["hb_env" := "mobile-app"]["hb_env_nativo" := "mobile-app"]
             ["hb_size" := size]["hb_size_nativo" := size]
             ["hb_bidder" := "nativo"]["hb_bidder_nativo" := "nativo"]
             ["hb_pb" := price]["hb_pb_nativo" := price]
         == m + NativoTargeting(width, height, price)
  {
  }

  method ApplyTargeting(bid: Bid, showPrice: real -> string)
    modifies bid`targeting
    ensures bid.targeting == old(bid.targeting) + NativoTargeting(bid.width, bid.height, showPrice(bid.price))
  {
    var size := SizeText(bid.width, bid.height);
    var price := showPrice(bid.price);
    TargetingWrites(bid.targeting, size, price, bid.width, bid.height);
    bid.targeting := bid.targeting["hb_env" := "mobile-app"]["hb_env_nativo" := "mobile-app"];
    bid.targeting := bid.targeting["hb_size" := size]["hb_size_nativo" := size];
    bid.targeting := bid.targeting["hb_bidder" := "nativo"]["hb_bidder_nativo" := "nativo"];
    bid.targeting := bid.targeting["hb_pb" := price]["hb_pb_nativo" := price];
  }

  /** The renderer keys (KEY_RENDERER_NAME, KEY_RENDERER_VERSION) belong to the Prebid library and are inputs here. */
  method ApplyRendererMeta(bid: Bid, nameKey: string, versionKey: string)
    modifies bid`meta
    ensures bid.meta == old(bid.meta)[nameKey := RendererName][versionKey := RendererVersion]
  {
    bid.meta := bid.meta[nameKey := RendererName];
    bid.meta := bid.meta[versionKey := RendererVersion];
  }

  // ---------------------------------------------------------------------------
  // The response
  // ---------------------------------------------------------------------------

  /**
   * A bid response.  superWinningBid is what the Prebid superclass's getWinningBid would
   * give; nativoWinningBid is set once, at construction, and stays None for a plain Prebid response.
   */
  class BidResponse {
    const superWinningBid: Option<Bid>
    const nativoWinningBid: Option<Bid>

    /** A plain Prebid response. */
    constructor Prebid(superWinningBid: Option<Bid>)
      ensures this.superWinningBid == superWinningBid && nativoWinningBid.None?
    {
      this.superWinningBid := superWinningBid;
      nativoWinningBid := None;
    }

    /** NativoBidResponse's init: select the winner, then write its targeting and meta. */
    constructor (seatbids: seq<seq<Bid>>, superWinningBid: Option<Bid>, showPrice: real -> string,
                 nameKey: string, versionKey: string)
      modifies set s, b | 0 <= s < |seatbids| && b in seatbids[s] :: b
      ensures this.superWinningBid == superWinningBid
      ensures nativoWinningBid == Winner(AllBids(seatbids))
      ensures forall s, b :: 0 <= s < |seatbids| && b in seatbids[s] ==>
        if Some(b) == nativoWinningBid then
          && b.targeting == old(b.targeting) + NativoTargeting(b.width, b.height, showPrice(b.price))
          && b.meta == old(b.meta)[nameKey := RendererName][versionKey := RendererVersion]
        else
          b.targeting == old(b.targeting) && b.meta == old(b.meta)
    {
      var winner := SelectWinningBid(seatbids);
      WinnerOfSeatbids(seatbids);
      this.superWinningBid := superWinningBid;
      nativoWinningBid := winner;
      new;
      if winner.Some? {
        ApplyTargeting(winner.value, showPrice);
        ApplyRendererMeta(winner.value, nameKey, versionKey);
      }
    }

    /** The Nativo-selected bid when there is one, else the superclass's choice. */
    function GetWinningBid(): (r: Option<Bid>)
      ensures nativoWinningBid.Some? ==> r == nativoWinningBid
      ensures nativoWinningBid.None? ==> r == superWinningBid
    {
      if nativoWinningBid.Some? then nativoWinningBid else superWinningBid
    }
  }
}
