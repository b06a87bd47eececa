/**
 * NativoParameterBuilder.appendBuilderParameters: patches the outgoing OpenRTB bid request in
 * place, setting the device IP to a fixed fallback address and every impression's tagid to
 * the ad unit's config id.  Only the fields this code touches, and one untouched field per
 * object to show that it stays as it was, are modelled.
 */
module ParameterBuilder {
  import opened Wrappers

  const FallbackIp: string := "108.214.18.218"

  class Device {
    var ip: Option<string>
    var ua: Option<string>

    constructor (ip: Option<string>, ua: Option<string>)
      ensures this.ip == ip && this.ua == ua
    {
      this.ip, this.ua := ip, ua;
    }
  }

  class Imp {
    var id: Option<string>
    var tagid: Option<string>

    constructor (id: Option<string>, tagid: Option<string>)
      ensures this.id == id && this.tagid == tagid
    {
      this.id, this.tagid := id, tagid;
    }
  }

  /** The request's imp list is iterated, never resized, by this code. */
  class BidRequest {
    const device: Device
    const imp: seq<Imp>

    constructor (device: Device, imp: seq<Imp>)
      ensures this.device == device && this.imp == imp
    {
      this.device, this.imp := device, imp;
    }
  }

  /** The set of impression objects a request lists. */
  function Imps(request: BidRequest): set<Imp>
  {
    set i | 0 <= i < |request.imp| :: request.imp[i]
  }

  class NativoParameterBuilder {
    const configId: Option<string>

    constructor (configId: Option<string>)
      ensures this.configId == configId
    {
      this.configId := configId;
    }

    /** Writes only device.ip and each imp's tagid: every other field is outside the frame. */
    method AppendBuilderParameters(request: BidRequest)
      modifies request.device`ip, Imps(request)`tagid
      ensures request.device.ip == Some(FallbackIp)
      ensures forall i :: 0 <= i < |request.imp| ==> request.imp[i].tagid == configId
      ensures request.device.ua == old(request.device.ua)
      ensures forall i :: 0 <= i < |request.imp| ==> request.imp[i].id == old(request.imp[i].id)
    {
      request.device.ip := Some(FallbackIp);
      for k := 0 to |request.imp|
        invariant request.device.ip == Some(FallbackIp)
        invariant forall i :: 0 <= i < k ==> request.imp[i].tagid == configId
      {
        request.imp[k].tagid := configId;
      }
    }
  }
}
