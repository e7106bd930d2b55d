/** Resource claims as the API server reports them. */
module Claims {
  import opened Results

  /** One device of a claim's allocation. */
  datatype DeviceResult = DeviceResult(driver: string, pool: string, device: string)

  /** A claim, allocated or not. */
  datatype Claim = Claim(uid: string, allocation: Option<seq<DeviceResult>>)

  /** The devices of this driver on this node, in order. */
  function DevicesOf(results: seq<DeviceResult>, driverName: string, nodeName: string): seq<string> {
    if |results| == 0 then [] else
      var before := DevicesOf(results[..|results| - 1], driverName, nodeName);
      var last := results[|results| - 1];
      if last.driver == driverName && last.pool == nodeName then before + [last.device] else before
  }

  function ClaimDevices(c: Claim, driverName: string, nodeName: string): seq<string> {
    if c.allocation.None? then [] else DevicesOf(c.allocation.value, driverName, nodeName)
  }

  /** Exactly the devices allocated by this driver from this node's pool. */
  lemma {:induction false} DevicesOfMember(results: seq<DeviceResult>, driverName: string, nodeName: string, d: string)
    ensures d in DevicesOf(results, driverName, nodeName) <==> DeviceResult(driverName, nodeName, d) in results
  {
    if |results| != 0 {
      var before, last := results[..|results| - 1], results[|results| - 1];
      DevicesOfMember(before, driverName, nodeName, d);
      assert results == before + [last];
    }
  }

  /** In the order of the allocation, and as often. */
  lemma {:induction false} DevicesInOrder(a: seq<DeviceResult>, b: seq<DeviceResult>, driverName: string,
                                          nodeName: string)
    ensures DevicesOf(a + b, driverName, nodeName)
      == DevicesOf(a, driverName, nodeName) + DevicesOf(b, driverName, nodeName)
    decreases |b|
  {
    if |b| == 0 {
      assert a + b == a;
    } else {
      DevicesInOrder(a, b[..|b| - 1], driverName, nodeName);
      assert (a + b)[..|a + b| - 1] == a + b[..|b| - 1];
    }
  }

  /** A claim without a device in this node's pool contributes nothing anyway. */
  lemma {:induction false} NoPoolNoDevices(results: seq<DeviceResult>, driverName: string, nodeName: string)
    requires forall r | r in results :: r.pool != nodeName
    ensures DevicesOf(results, driverName, nodeName) == []
  {
    if |results| != 0 { NoPoolNoDevices(results[..|results| - 1], driverName, nodeName); }
  }
}
