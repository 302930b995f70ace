/**
 * Matching a device against one network scan: the scanner reports one
 * address record per reachable host, and only some records carry a MAC address.
 */
module Scan {
  import opened Wrappers

  /** The `addresses` record of one scanned host; `mac` is None when the record has no MAC key. */
  datatype HostAddresses = HostAddresses(ipv4: string, mac: Option<string>)

  /** Some host record carries exactly this MAC address. */
  predicate MacSeen(hosts: seq<HostAddresses>, mac: string)
  {
    exists i :: 0 <= i < |hosts| && hosts[i].mac == Some(mac)
  }

  /**
   * The search in the scan: walk the host records in order and stop at the
   * first one whose MAC address equals `mac` exactly; records without one are skipped.
   */
  method FindMac(hosts: seq<HostAddresses>, mac: string) returns (found: bool)
    ensures found <==> MacSeen(hosts, mac)
  {
    var i := 0;
    while i < |hosts|
      invariant 0 <= i <= |hosts|
      invariant forall j :: 0 <= j < i ==> hosts[j].mac != Some(mac)
    {
      if hosts[i].mac.Some? && hosts[i].mac.value == mac {
        return true;
      }
      i := i + 1;
    }
    return false;
  }
}
