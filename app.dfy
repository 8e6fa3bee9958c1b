/** The server of app.py as far as it keeps state: the one scanner it was
    started with, the registry of the last scan's results, and the three
    API handlers that write and read that registry. */
module App {
  import opened Wrappers
  import opened Text
  import opened Scanner

  /** The range used when the environment sets none, and when a scan request names none. */
  const DefaultNetworkRange := "192.168.0.0/24"

  /** The body of `POST /api/scan`: no JSON at all (so `request.json.get`
      raises), or a JSON object whose `network_range` key may be missing. */
  datatype ScanRequest =
    | NoJsonBody
    | JsonBody(networkRange: Option<string>)

  /** The reply of `POST /api/scan`: success with its message and the
      devices, or status 500 (the text of the exception is not modelled). */
  datatype ScanResponse =
    | ScanSucceeded(message: string, devices: seq<Device>)
    | ScanFailed

  /** The reply of `GET /api/device/<ip>`: the details, or status 404 with its message. */
  datatype DetailsResponse =
    | DetailsFound(device: Device)
    | DetailsNotFound(message: string)

  const FoundSuffix := "개의 장치를 발견했습니다."

  /** The success message: the number of devices, then "devices found". */
  function FoundMessage(n: nat): string {
    IntToString(n) + FoundSuffix
  }

  /** The number at the head of the success message is the device count. */
  lemma FoundMessageCount(n: nat)
    ensures ReadNumber(FoundMessage(n)) == (n, FoundSuffix)
  {
    ReadNumberAfter(n, FoundSuffix);
  }

  function NotFoundMessage(ip: string): string {
    "IP " + ip + "에 해당하는 장치를 찾을 수 없습니다."
  }

  /** `next((d for d in results if d['ip'] == ip), None)`: the first record
      with that ip, or none when no record has it. */
  function FindByIp(ds: seq<Device>, ip: string): (r: Option<Device>)
    ensures r.None? <==> forall k :: 0 <= k < |ds| ==> ds[k].ip != ip
    ensures r.Some? ==> exists k :: 0 <= k < |ds| && ds[k] == r.value && ds[k].ip == ip
                                    && forall j :: 0 <= j < k ==> ds[j].ip != ip
  {
    if ds == [] then None
    else if ds[0].ip == ip then
      Some(ds[0])
    else
      var r := FindByIp(ds[1..], ip);
      assert r.Some? ==> exists k :: 0 <= k < |ds[1..]| && ds[1..][k] == r.value && ds[1..][k].ip == ip
                                     && forall j :: 0 <= j < k ==> ds[1..][j].ip != ip;
      assert r.Some? ==> exists k :: 1 <= k < |ds| && ds[k] == r.value && ds[k].ip == ip
                                     && forall j :: 0 <= j < k ==> ds[j].ip != ip by {
        if r.Some? {
          var k :| 0 <= k < |ds[1..]| && ds[1..][k] == r.value && ds[1..][k].ip == ip
                   && forall j :: 0 <= j < k ==> ds[1..][j].ip != ip;
          assert ds[k + 1] == r.value && forall j :: 0 <= j < k + 1 ==> ds[j].ip != ip;
        }
      }
      r
  }

  /** Every printer of a sweep can be looked up by its ip afterwards. */
  lemma ScannedPrinterIsFound(hosts: seq<HostEntry>, now: string, k: int)
    requires 0 <= k < |hosts| && IsPrinterHost(hosts[k].ip, hosts[k].host)
    ensures FindByIp(PrintersOf(hosts, now), hosts[k].ip).Some?
  {
    var d := BasicInfo(hosts[k].ip, hosts[k].host, now);
    PrintersOfMembers(hosts, now, d);
    var ds := PrintersOf(hosts, now);
    var i :| 0 <= i < |ds| && ds[i] == d;
    assert ds[i].ip == hosts[k].ip;
  }

  /** The module-level state of app.py. */
  class Server {
    const scanner: NetworkScanner
    var lastScanResults: seq<Device>

    /** Start-up: a scanner on the default range and an empty registry. */
    constructor ()
      ensures fresh(scanner)
      ensures scanner.networkRange == DefaultNetworkRange && lastScanResults == []
    {
      scanner := new NetworkScanner(DefaultNetworkRange);
      lastScanResults := [];
    }

    /** `scan_network`: point the scanner at the requested range (the default
        when none is named), scan, and on success replace the registry and
        report the count. When the scan raises, the range stays set and the
        registry keeps the previous results. */
    method ScanNetwork(request: ScanRequest, nmap: map<string, seq<HostEntry>>, now: string)
      returns (resp: ScanResponse)
      modifies this, scanner
      ensures request.NoJsonBody? ==>
                resp == ScanFailed && lastScanResults == old(lastScanResults)
                && scanner.networkRange == old(scanner.networkRange)
      ensures request.JsonBody? ==>
                scanner.networkRange == request.networkRange.GetOr(DefaultNetworkRange)
      ensures request.JsonBody? && scanner.networkRange in nmap ==>
                lastScanResults == PrintersOf(nmap[scanner.networkRange], now)
                && resp == ScanSucceeded(FoundMessage(|lastScanResults|), lastScanResults)
      ensures request.JsonBody? && scanner.networkRange !in nmap ==>
                resp == ScanFailed && lastScanResults == old(lastScanResults)
    {
      if request.NoJsonBody? {
        return ScanFailed;
      }
      scanner.networkRange := request.networkRange.GetOr(DefaultNetworkRange);
      var result := scanner.Scan(nmap, now);
      match result
      case None =>
        resp := ScanFailed;
      case Some(devices) =>
        lastScanResults := devices;
        resp := ScanSucceeded(FoundMessage(|devices|), devices);
    }

    /** `get_devices`: the registry as it stands. */
    method GetDevices() returns (devices: seq<Device>)
      ensures devices == lastScanResults
    {
      devices := lastScanResults;
    }

    /** `get_device_details`: 404 unless some registered record has the ip;
        otherwise the scanner's fresh details of that ip (the registered
        record itself is not what is returned). The registry is not changed. */
    method GetDeviceDetails(ip: string, h: Host, now: string) returns (resp: DetailsResponse)
      ensures (forall k :: 0 <= k < |lastScanResults| ==> lastScanResults[k].ip != ip) ==>
                resp == DetailsNotFound(NotFoundMessage(ip))
      ensures (exists k :: 0 <= k < |lastScanResults| && lastScanResults[k].ip == ip) ==>
                resp == DetailsFound(DetailsOf(ip, h, now))
      ensures resp.DetailsFound? ==> resp.device.ip == ip && resp.device.location.Some?
    {
      var found := FindByIp(lastScanResults, ip);
      if found.None? {
        return DetailsNotFound(NotFoundMessage(ip));
      }
      var details := Scanner.GetDeviceDetails(ip, h, now);
      resp := DetailsFound(details);
    }
  }
}
