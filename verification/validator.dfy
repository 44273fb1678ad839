/**
 * `ProxyValidator`: the reachability gate, the ordered HTTP probe loop and
 * the assembly of the details record, with every network outcome given as
 * an input: whether the socket connect succeeds, and what each of the five
 * probe requests returned.
 */
module Validation {
  import opened Wrappers
  import opened PyText
  import opened Records

  /** An HTTP response as the probe loop sees it. */
  datatype Response = Response(
    status: int,
    latency: real,                 // seconds between the request and the response
    reportedIp: Option<string>)    // the address a 200 body names ('origin', 'query' or a short text), if any

  /** One probe: the request raised, or a response arrived. */
  datatype Probe = Raised | Got(response: Response)

  /** The five test URLs, tried in this order. */
  const TestUrls: seq<string> := [
    "http://httpbin.org/ip", "http://ip-api.com/json", "http://ifconfig.me/ip",
    "http://www.google.com", "http://example.com"]

  /** A `requests` response is falsy exactly for the status codes 400 to 599. */
  predicate Truthy(r: Option<Response>) {
    r.Some? && !(400 <= r.value.status < 600)
  }

  /** `round(x, 2)`, rounding halves up. */
  function Round2(x: real): (r: real)
    ensures x - 0.005 < r <= x + 0.005
  {
    ((x * 100.0 + 0.5).Floor as real) / 100.0
  }

  /** The speed of a proxy that never gave a truthy response. */
  const NoResponseSpeed: real := 999.99

  // ---------------------------------------------------------------------
  // The probe loop
  // ---------------------------------------------------------------------

  /** `response`, `response_time` and `auth_required` as the loop updates them. */
  datatype ProbeState = ProbeState(response: Option<Response>, responseTime: real, authRequired: bool)

  const Initial: ProbeState := ProbeState(None, 0.0, false)

  /** The loop over the remaining probes from a given state. */
  function Probing(probes: seq<Probe>, st: ProbeState): ProbeState
    decreases |probes|
  {
    if probes == [] then st
    else match probes[0]
      case Raised => Probing(probes[1..], st)
      case Got(r) =>
        var st' := ProbeState(Some(r), r.latency, st.authRequired);
        if r.status == 407 then st'.(authRequired := true)
        else if r.status == 200 then st'
        else Probing(probes[1..], st')
  }

  /** A response that ends the loop: 407 or 200. */
  predicate Decisive(p: Probe) {
    p.Got? && (p.response.status == 407 || p.response.status == 200)
  }

  /** The index of the first decisive probe, or the number of probes if there is none. */
  function FirstDecisive(probes: seq<Probe>): (k: nat)
    ensures k <= |probes|
    ensures forall j :: 0 <= j < k ==> !Decisive(probes[j])
    ensures k < |probes| ==> Decisive(probes[k])
  {
    if probes == [] then 0
    else if Decisive(probes[0]) then 0
    else 1 + FirstDecisive(probes[1..])
  }

  /** How many probes the loop tries. */
  function Tried(probes: seq<Probe>): (n: nat)
    ensures n <= |probes|
  {
    var k := FirstDecisive(probes);
    if k < |probes| then k + 1 else |probes|
  }

  lemma TriedStep(probes: seq<Probe>)
    requires probes != [] && !Decisive(probes[0])
    ensures Tried(probes) == 1 + Tried(probes[1..])
    ensures FirstDecisive(probes) == 1 + FirstDecisive(probes[1..])
  {
  }

  /**
   * `requires_auth` is set iff a 407 arrives before any 200 (it is never
   * cleared once set).
   */
  lemma {:induction false} ProbingAuth(probes: seq<Probe>, st: ProbeState)
    ensures Probing(probes, st).authRequired <==>
      st.authRequired ||
      (FirstDecisive(probes) < |probes| && probes[FirstDecisive(probes)].response.status == 407)
    decreases |probes|
  {
    if probes != [] && !Decisive(probes[0]) {
      var st' := if probes[0].Raised? then st else ProbeState(Some(probes[0].response), probes[0].response.latency, st.authRequired);
      ProbingAuth(probes[1..], st');
      TriedStep(probes);
    }
  }

  /** Probe `k` is the last one among those tried that brought a response. */
  predicate LastArrival(probes: seq<Probe>, k: int) {
    0 <= k < Tried(probes) && probes[k].Got? && forall j :: k < j < Tried(probes) ==> probes[j].Raised?
  }

  /** The loop keeps `response_time` equal to the latency of `response` once one has arrived. */
  predicate Consistent(st: ProbeState) {
    st.response.Some? ==> st.responseTime == st.response.value.latency
  }

  /**
   * The response the loop ends with is the last one that arrived among the
   * probes it tried (a raising probe keeps the previous one), together with
   * its latency; if none arrived, the state is as it was.
   */
  lemma {:induction false} ProbingResponse(probes: seq<Probe>, st: ProbeState)
    requires Consistent(st)
    ensures var r := Probing(probes, st);
      && Consistent(r)
      && ((forall j :: 0 <= j < Tried(probes) ==> probes[j].Raised?) ==>
            r.response == st.response && r.responseTime == st.responseTime)
      && (forall k :: LastArrival(probes, k) ==> r.response == Some(probes[k].response))
    decreases |probes|
  {
    if probes != [] && !Decisive(probes[0]) {
      var st' := if probes[0].Raised? then st else ProbeState(Some(probes[0].response), probes[0].response.latency, st.authRequired);
      ProbingResponse(probes[1..], st');
      TriedStep(probes);
      var n := Tried(probes);
      forall k | LastArrival(probes, k)
        ensures Probing(probes, st).response == Some(probes[k].response)
      {
        if k > 0 {
          assert probes[1..][k - 1] == probes[k];
          forall j | k - 1 < j < n - 1 ensures probes[1..][j].Raised? {
            assert probes[1..][j] == probes[j + 1];
          }
        } else {
          forall j | 0 <= j < n - 1 ensures probes[1..][j].Raised? {
            assert probes[1..][j] == probes[j + 1];
          }
        }
      }
      if forall j :: 0 <= j < n ==> probes[j].Raised? {
        assert probes[0].Raised?;
        forall j | 0 <= j < n - 1 ensures probes[1..][j].Raised? {
          assert probes[1..][j] == probes[j + 1];
        }
      }
    }
  }

  /** Both facts together, from the loop's initial state. */
  lemma ProbingFromInitial(probes: seq<Probe>)
    ensures var r := Probing(probes, Initial);
      && Consistent(r)
      && ((forall j :: 0 <= j < Tried(probes) ==> probes[j].Raised?) ==> r.response.None?)
      && (forall k :: LastArrival(probes, k) ==> r.response == Some(probes[k].response))
      && (r.authRequired <==> FirstDecisive(probes) < |probes| && probes[FirstDecisive(probes)].response.status == 407)
  {
    ProbingResponse(probes, Initial);
    ProbingAuth(probes, Initial);
  }

  // ---------------------------------------------------------------------
  // The details record
  // ---------------------------------------------------------------------

  /** The anonymity guessed from the last response and its latency. */
  function InferAnonymity(response: Option<Response>, responseTime: real): (a: string)
    ensures a in {"elite", "anonymous", "transparent"}
  {
    if Truthy(response) && responseTime < 2.0 then "elite"
    else if Truthy(response) && responseTime < 5.0 then "anonymous"
    else "transparent"
  }

  /** The tiers: under 2 s elite, under 5 s anonymous, otherwise (or with no truthy response) transparent. */
  lemma InferAnonymityTiers(response: Option<Response>, responseTime: real)
    ensures InferAnonymity(response, responseTime) == "elite" <==> Truthy(response) && responseTime < 2.0
    ensures InferAnonymity(response, responseTime) == "anonymous" <==> Truthy(response) && 2.0 <= responseTime < 5.0
    ensures InferAnonymity(response, responseTime) == "transparent" <==> !Truthy(response) || responseTime >= 5.0
  {
  }

  /** The address the details are about: the record's own when a record is given, else the text. */
  function AddressOf(proxyData: Option<Entry>, proxyStr: string): string {
    if proxyData.Some? then proxyData.value.proxy else proxyStr
  }

  /**
   * The ports `socket.connect` takes; for any other it raises `OverflowError`,
   * which is no socket error and reaches the outer `except Exception`.
   */
  predicate PortInRange(port: int) {
    0 <= port <= 65535
  }

  /** The port text reads as an integer the connect accepts. */
  predicate PortAccepted(port: string) {
    ParseInt(port).Some? && PortInRange(ParseInt(port).value)
  }

  /** The cases in which `get_proxy_details` gives up and returns None. */
  predicate Refused(proxy: string, connectOk: bool) {
    var parts := Split(proxy, ':');
    proxy == "" || |parts| != 2 || !PortAccepted(parts[1]) || !connectOk
  }

  /** The record built after the loop from its final state. */
  function Assemble(proxy: string, proxyData: Option<Entry>, st: ProbeState, now: int): Details {
    var ip :=
      if Truthy(st.response) && st.response.value.status == 200 && st.response.value.reportedIp.Some?
      then st.response.value.reportedIp.value
      else Split(proxy, ':')[0];
    var country := if proxyData.Some? then CountryOf(proxyData.value) else "unknown";
    var anonymity := if proxyData.Some? then AnonymityOf(proxyData.value) else "unknown";
    Details(
      proxy,
      "valid",
      if Truthy(st.response) then Round2(st.responseTime) else NoResponseSpeed,
      now,
      ip,
      st.authRequired,
      country,
      if anonymity == "unknown" then InferAnonymity(st.response, st.responseTime) else anonymity)
  }

  /**
   * `get_proxy_details`: None exactly in the refused cases; otherwise the
   * record assembled from the probe loop. `probes` are the outcomes of the
   * five test URLs in order, `connectOk` the outcome of the socket connect.
   */
  method GetProxyDetails(proxyData: Option<Entry>, proxyStr: string, connectOk: bool,
                         probes: seq<Probe>, now: int) returns (d: Option<Details>)
    requires |probes| == |TestUrls|
    ensures d.None? <==> Refused(AddressOf(proxyData, proxyStr), connectOk)
    ensures d.Some? ==> d.value == Assemble(AddressOf(proxyData, proxyStr), proxyData, Probing(probes, Initial), now)
  {
    var proxy := if proxyData.Some? then proxyData.value.proxy else proxyStr;
    if proxy == "" {
      return None;
    }
    var parts := Split(proxy, ':');
    if |parts| != 2 {
      return None;
    }
    var host, port := parts[0], ParseInt(parts[1]);
    if port.None? || !PortInRange(port.value) || !connectOk {
      return None;
    }
    var response: Option<Response> := None;
    var responseTime: real := 0.0;
    var authRequired := false;
    var i := 0;
    while i < |TestUrls|
      invariant 0 <= i <= |TestUrls|
      invariant Probing(probes[i..], ProbeState(response, responseTime, authRequired)) == Probing(probes, Initial)
    {
      assert probes[i..][0] == probes[i] && probes[i..][1..] == probes[i + 1..];
      match probes[i]
      case Raised =>
        i := i + 1;
        continue;
      case Got(r) =>
        response := Some(r);
        responseTime := r.latency;
        if r.status == 407 {
          authRequired := true;
          break;
        }
        if r.status == 200 {
          break;
        }
        i := i + 1;
    }
    var speed := if Truthy(response) then Round2(responseTime) else NoResponseSpeed;
    var ip := host;
    if Truthy(response) && response.value.status == 200 {
      if response.value.reportedIp.Some? {
        ip := response.value.reportedIp.value;
      }
    }
    var country, anonymity := "unknown", "unknown";
    if proxyData.Some? {
      country, anonymity := CountryOf(proxyData.value), AnonymityOf(proxyData.value);
    }
    if anonymity == "unknown" {
      if Truthy(response) && responseTime < 2.0 {
        anonymity := "elite";
      } else if Truthy(response) && responseTime < 5.0 {
        anonymity := "anonymous";
      } else {
        anonymity := "transparent";
      }
    }
    d := Some(Details(proxy, "valid", speed, now, ip, authRequired, country, anonymity));
  }

  /**
   * What the source promises of an assembled record: status 'valid' even
   * when every probe failed; `requires_auth` iff a 407 came before any 200;
   * the speed is the rounded latency of the last response if that is
   * truthy, else 999.99; country and anonymity are copied (default
   * 'unknown'), and an 'unknown' anonymity is replaced, so it never stays.
   */
  lemma AssembleFacts(proxy: string, proxyData: Option<Entry>, probes: seq<Probe>, now: int)
    ensures var st := Probing(probes, Initial);
      var d := Assemble(proxy, proxyData, st, now);
      && d.status == "valid"
      && d.proxy == proxy
      && (d.requiresAuth <==> FirstDecisive(probes) < |probes| && probes[FirstDecisive(probes)].response.status == 407)
      && (Truthy(st.response) ==> d.speed == Round2(st.response.value.latency))
      && (!Truthy(st.response) ==> d.speed == 999.99)
      && d.anonymity != "unknown"
      && (proxyData.Some? && AnonymityOf(proxyData.value) != "unknown" ==> d.anonymity == AnonymityOf(proxyData.value))
      && d.country == (if proxyData.Some? then CountryOf(proxyData.value) else "unknown")
      && d.lastChecked == now
  {
    ProbingFromInitial(probes);
  }

  /** A 407 is falsy, so a proxy that asks for authentication gets the fallback speed. */
  lemma AuthMeansNoSpeed(probes: seq<Probe>)
    requires FirstDecisive(probes) < |probes| && probes[FirstDecisive(probes)].response.status == 407
    ensures !Truthy(Probing(probes, Initial).response)
  {
    ProbingFromInitial(probes);
    var k := FirstDecisive(probes);
    assert Tried(probes) == k + 1 && LastArrival(probes, k);
    assert Probing(probes, Initial).response == Some(probes[k].response);
  }

  /** When every probe raises, the record still says 'valid', with the fallback speed. */
  lemma AllProbesFail(proxy: string, proxyData: Option<Entry>, probes: seq<Probe>, now: int)
    requires forall j :: 0 <= j < |probes| ==> probes[j].Raised?
    ensures Assemble(proxy, proxyData, Probing(probes, Initial), now).status == "valid"
    ensures Assemble(proxy, proxyData, Probing(probes, Initial), now).speed == 999.99
  {
    ProbingFromInitial(probes);
  }

  // ---------------------------------------------------------------------
  // `validate_proxy` and `_check_anonymity_level`
  // ---------------------------------------------------------------------

  /**
   * `validate_proxy`: host and port split off, the port read as an integer
   * in the connect's range, and the connect succeeded.
   */
  function ValidateProxy(proxy: string, connectOk: bool): (ok: bool)
    ensures ok <==> proxy != "" && !Refused(proxy, connectOk)
  {
    var parts := Split(proxy, ':');
    |parts| == 2 && PortAccepted(parts[1]) && connectOk
  }

  /** For "host:port" with one colon, the answer is whether the port is accepted and the connect succeeded. */
  lemma ValidateSplit(host: string, port: string, connectOk: bool)
    requires ':' !in host && ':' !in port
    ensures ValidateProxy(host + ":" + port, connectOk) == (PortAccepted(port) && connectOk)
  {
    assert host + ":" + port == host + [':'] + port;
    SplitAfter(host, ':', port);
    SplitWhole(port, ':');
  }

  /** For a digit-only port the answer is the connect outcome, provided the port is at most 65535. */
  lemma ValidateWellFormed(host: string, port: string, connectOk: bool)
    requires ':' !in host && port != [] && AllDigits(port)
    ensures ValidateProxy(host + ":" + port, connectOk) == (DigitsValue(port) <= 65535 && connectOk)
  {
    assert ':' !in port by {
      forall i | 0 <= i < |port| ensures port[i] != ':' { assert IsDigit(port[i]); }
    }
    ValidateSplit(host, port, connectOk);
    ParseIntDigits(port);
  }

  /** A port written with an inner underscore is read as `int` reads it, and the connect decides. */
  lemma UnderscorePortConnects(connectOk: bool)
    ensures ValidateProxy("1.2.3.4:8_080", connectOk) == connectOk
  {
    assert "1.2.3.4:8_080" == "1.2.3.4" + ":" + "8_080";
    ValidateSplit("1.2.3.4", "8_080", connectOk);
    ParseIntUnderscores();
  }

  /**
   * A port `int` reads but the connect cannot take (negative, or beyond
   * 65535) makes the connect raise, so both gates refuse the address
   * whatever the network does.
   */
  lemma PortOutOfRangeRefused(host: string, port: string, connectOk: bool)
    requires ':' !in host && ':' !in port
    requires ParseInt(port).Some? && !PortInRange(ParseInt(port).value)
    ensures Refused(host + ":" + port, connectOk)
    ensures !ValidateProxy(host + ":" + port, connectOk)
  {
    ValidateSplit(host, port, connectOk);
  }

  /**
   * What the headers request returned: it raised, or a status and the header
   * names of the decoded body. `None` stands for a body that is not JSON (so
   * `response.json()` raises); a JSON body without a `headers` key is
   * `Some({})`, as `.get('headers', {})` reads it.
   */
  datatype HeaderProbe = HeadersRaised | HeadersGot(status: int, headers: Option<set<string>>)

  /** `_check_anonymity_level`. */
  function CheckAnonymityLevel(p: HeaderProbe): (level: string)
    ensures level in {"elite", "anonymous", "transparent", "unknown"}
  {
    if p.HeadersGot? && p.status == 200 && p.headers.Some? then
      var h := p.headers.value;
      if "X-Forwarded-For" !in h && "Via" !in h then "elite"
      else if "X-Forwarded-For" !in h then "anonymous"
      else "transparent"
    else "unknown"
  }

  /**
   * The level is 'unknown' exactly when there is no decoded 200 response;
   * on one, only the two header names matter, and X-Forwarded-For alone
   * decides 'transparent'.
   */
  lemma CheckAnonymityLevelCases(p: HeaderProbe)
    ensures var level := CheckAnonymityLevel(p);
      && (level == "unknown" <==> !(p.HeadersGot? && p.status == 200 && p.headers.Some?))
      && (p.HeadersGot? && p.status == 200 && p.headers.Some? ==>
            var h := p.headers.value;
            && level == CheckAnonymityLevel(HeadersGot(200, Some(h * {"X-Forwarded-For", "Via"})))
            && (level == "transparent" <==> "X-Forwarded-For" in h))
  {
  }

  /** A JSON body without a `headers` key reads as no headers at all, which is 'elite'. */
  lemma NoHeadersKeyElite()
    ensures CheckAnonymityLevel(HeadersGot(200, Some({}))) == "elite"
  {
  }
}
