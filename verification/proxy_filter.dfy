/**
 * `ProxyFilter`: a stricter address check (octet and port ranges, at least
 * two port digits) and an anonymity filter over a candidate list.
 */
module ProxyFiltering {
  import opened Wrappers
  import opened PyText
  import opened Seqs
  import opened Records
  import opened BaseFetch

  /** The filter's settings; nothing changes them after construction. */
  datatype ProxyFilter = ProxyFilter(minAnonymity: string, protocols: seq<string>)

  /** `ProxyFilter(min_anonymity, protocols)`: a missing or empty protocol list becomes HTTP and HTTPS. */
  function NewProxyFilter(minAnonymity: string, protocols: Option<seq<string>>): (f: ProxyFilter)
    ensures f.minAnonymity == minAnonymity && f.protocols != []
    ensures protocols.Some? && protocols.value != [] ==> f.protocols == protocols.value
    ensures protocols.None? || protocols.value == [] ==> f.protocols == ["http", "https"]
  {
    var given := protocols.GetOr([]);
    ProxyFilter(minAnonymity, if given != [] then given else ["http", "https"])
  }

  /** The filter's default threshold. */
  const DefaultMinAnonymity: string := "anonymous"

  // ---------------------------------------------------------------------
  // `_is_valid_proxy_format`
  // ---------------------------------------------------------------------

  /** `^(\d{1,3}\.\d{1,3}\.\d{1,3}\.\d{1,3}):(\d{2,5})$`. */
  predicate MatchesStrictPattern(s: string) {
    var parts := Split(s, ':');
    |parts| == 2 && IsDottedQuad(parts[0]) && DigitRun(parts[1], 2, 5)
  }

  /** The pattern, then every octet at most 255 and the port between 1 and 65535. */
  predicate IsValidProxyFormat(proxy: string) {
    MatchesStrictPattern(proxy) &&
    var ipParts := Split(Split(proxy, ':')[0], '.');
    var port := DigitsValue(Split(proxy, ':')[1]);
    (forall k :: 0 <= k < |ipParts| ==> DigitsValue(ipParts[k]) <= 255)
    && 1 <= port <= 65535
  }

  /** The conditions on the pieces of an address that the format check accepts. */
  predicate ValidPieces(a: string, b: string, c: string, d: string, port: string) {
    DigitRun(a, 1, 3) && DigitRun(b, 1, 3) && DigitRun(c, 1, 3) && DigitRun(d, 1, 3)
    && DigitsValue(a) <= 255 && DigitsValue(b) <= 255 && DigitsValue(c) <= 255 && DigitsValue(d) <= 255
    && DigitRun(port, 2, 5) && 1 <= DigitsValue(port) <= 65535
  }

  /**
   * The format check accepts an address iff it is four octets of one to
   * three digits, each at most 255, a colon, and a port of two to five
   * digits between 1 and 65535.
   */
  lemma ValidFormatIff(s: string)
    ensures IsValidProxyFormat(s) <==>
      exists a, b, c, d, port :: s == a + "." + b + "." + c + "." + d + ":" + port && ValidPieces(a, b, c, d, port)
  {
    if IsValidProxyFormat(s) {
      var parts := Split(s, ':');
      var o := Split(parts[0], '.');
      AddressFromParts(o[0], o[1], o[2], o[3], parts[1]);
      AddressParts(s);
      assert ValidPieces(o[0], o[1], o[2], o[3], parts[1]);
    }
    if exists a, b, c, d, port :: s == a + "." + b + "." + c + "." + d + ":" + port && ValidPieces(a, b, c, d, port) {
      var a, b, c, d, port :| s == a + "." + b + "." + c + "." + d + ":" + port && ValidPieces(a, b, c, d, port);
      ValidFormatFromPieces(a, b, c, d, port);
    }
  }

  /** Pieces that meet the conditions make an address the format check accepts. */
  lemma ValidFormatFromPieces(a: string, b: string, c: string, d: string, port: string)
    requires ValidPieces(a, b, c, d, port)
    ensures IsValidProxyFormat(a + "." + b + "." + c + "." + d + ":" + port)
  {
    SplitAddress(a, b, c, d, port);
    var o := [a, b, c, d];
    assert forall k :: 0 <= k < 4 ==> DigitsValue(o[k]) <= 255 && DigitRun(o[k], 1, 3);
  }

  /** Whatever the format check accepts also has the shared filter's looser shape. */
  lemma ValidFormatMatchesBasePattern(s: string)
    requires IsValidProxyFormat(s)
    ensures MatchesAddressPattern(s)
  {
  }

  /** A one-digit port has the shared filter's shape but fails this check. */
  lemma SingleDigitPortRejected(a: string, b: string, c: string, d: string, port: string)
    requires DigitRun(a, 1, 3) && DigitRun(b, 1, 3) && DigitRun(c, 1, 3) && DigitRun(d, 1, 3)
    requires DigitRun(port, 1, 1)
    ensures MatchesAddressPattern(a + "." + b + "." + c + "." + d + ":" + port)
    ensures !IsValidProxyFormat(a + "." + b + "." + c + "." + d + ":" + port)
  {
    SplitAddress(a, b, c, d, port);
  }

  /** An octet above 255 is rejected, whatever the rest. */
  lemma LargeOctetRejected(a: string, b: string, c: string, d: string, port: string)
    requires DigitRun(a, 1, 3) && DigitRun(b, 1, 3) && DigitRun(c, 1, 3) && DigitRun(d, 1, 3)
    requires AllDigits(port) && DigitsValue(a) > 255
    ensures !IsValidProxyFormat(a + "." + b + "." + c + "." + d + ":" + port)
  {
    var s := a + "." + b + "." + c + "." + d + ":" + port;
    SplitAddress(a, b, c, d, port);
    var ipParts := Split(Split(s, ':')[0], '.');
    assert ipParts[0] == a;
  }

  /** A missing address reads as `''`, which is rejected. */
  lemma EmptyAddressRejected()
    ensures !IsValidProxyFormat("")
  {
    assert Split("", ':') == [""];
  }

  // ---------------------------------------------------------------------
  // `filter_proxies`
  // ---------------------------------------------------------------------

  /** The anonymity test of the loop body: `continue` for this tag under this threshold. */
  predicate DroppedForAnonymity(minAnonymity: string, anonymity: string) {
    minAnonymity != "anonymous" &&
    ((anonymity == "transparent" && minAnonymity in ["anonymous", "elite"])
     || (anonymity == "anonymous" && minAnonymity == "elite"))
  }

  /** Only the 'elite' threshold drops anything, and then exactly the 'transparent' and 'anonymous' tags. */
  lemma DroppedForAnonymityIff(minAnonymity: string, anonymity: string)
    ensures DroppedForAnonymity(minAnonymity, anonymity)
        <==> minAnonymity == "elite" && (anonymity == "transparent" || anonymity == "anonymous")
  {
  }

  /** The entry survives the loop body. */
  predicate Passes(f: ProxyFilter, e: Entry) {
    IsValidProxyFormat(e.proxy) && !DroppedForAnonymity(f.minAnonymity, AnonymityOf(e))
  }

  /** The entries that survive, in order. */
  function FilterSpec(f: ProxyFilter, ps: seq<Entry>): seq<Entry> {
    if ps == [] then []
    else (if Passes(f, ps[0]) then [ps[0]] else []) + FilterSpec(f, ps[1..])
  }

  /** The entries with an accepted address, in order: the list when no anonymity test applies. */
  function FormatOnly(ps: seq<Entry>): seq<Entry> {
    if ps == [] then []
    else (if IsValidProxyFormat(ps[0].proxy) then [ps[0]] else []) + FormatOnly(ps[1..])
  }

  /** Filtering a list with one more entry at the end adds that entry exactly when it passes. */
  lemma {:induction false} FilterSpecSnoc(f: ProxyFilter, ps: seq<Entry>, e: Entry)
    ensures FilterSpec(f, ps + [e]) == FilterSpec(f, ps) + if Passes(f, e) then [e] else []
    decreases |ps|
  {
    var last := if Passes(f, e) then [e] else [];
    if ps == [] {
      assert ps + [e] == [e] && [e][1..] == [];
    } else {
      assert (ps + [e])[0] == ps[0] && (ps + [e])[1..] == ps[1..] + [e];
      FilterSpecSnoc(f, ps[1..], e);
      var first := if Passes(f, ps[0]) then [ps[0]] else [];
      assert first + (FilterSpec(f, ps[1..]) + last) == (first + FilterSpec(f, ps[1..])) + last;
    }
  }

  /** `filter_proxies`: the loop appends, unchanged, each entry that passes. */
  method FilterProxies(f: ProxyFilter, proxies: seq<Entry>) returns (filtered: seq<Entry>)
    ensures filtered == FilterSpec(f, proxies)
  {
    filtered := [];
    var i := 0;
    while i < |proxies|
      invariant 0 <= i <= |proxies|
      invariant filtered == FilterSpec(f, proxies[..i])
    {
      var proxyData := proxies[i];
      FilterSpecSnoc(f, proxies[..i], proxyData);
      assert proxies[..i + 1] == proxies[..i] + [proxyData];
      var passes := LoopBodyPasses(f, proxyData);
      if passes {
        filtered := filtered + [proxyData];
      }
      i := i + 1;
    }
    assert proxies[..|proxies|] == proxies;
  }

  /** The loop body's tests, in the body's order: `false` wherever it would `continue`. */
  method LoopBodyPasses(f: ProxyFilter, proxyData: Entry) returns (passes: bool)
    ensures passes == Passes(f, proxyData)
  {
    if !IsValidProxyFormat(proxyData.proxy) {
      return false;
    }
    if f.minAnonymity != "anonymous" {
      var anonymity := AnonymityOf(proxyData);
      if anonymity == "transparent" && f.minAnonymity in ["anonymous", "elite"] {
        return false;
      }
      if anonymity == "anonymous" && f.minAnonymity == "elite" {
        return false;
      }
    }
    return true;
  }

  /**
   * The output is an order-preserving subsequence of the input, holding the
   * input's entries unmodified; each has an accepted address, and every
   * input entry that passes is in it.
   */
  lemma {:induction false} FilterSpecSound(f: ProxyFilter, ps: seq<Entry>)
    ensures IsSubseq(FilterSpec(f, ps), ps)
    ensures forall e :: e in FilterSpec(f, ps) ==> IsValidProxyFormat(e.proxy) && Passes(f, e)
    ensures forall i :: 0 <= i < |ps| && Passes(f, ps[i]) ==> ps[i] in FilterSpec(f, ps)
  {
    if ps != [] {
      FilterSpecSound(f, ps[1..]);
      var r := FilterSpec(f, ps);
      var r' := FilterSpec(f, ps[1..]);
      if Passes(f, ps[0]) {
        assert r == [ps[0]] + r' && r[1..] == r';
      } else {
        assert r == r';
        if r != [] {
          assert IsSubseq(r, ps[1..]);
        }
      }
      forall i | 0 < i < |ps| && Passes(f, ps[i]) ensures ps[i] in r {
        assert ps[1..][i - 1] == ps[i];
      }
    }
  }

  /** Under any threshold but 'elite' (the default 'anonymous' included) only the address is checked. */
  lemma {:induction false} NonEliteChecksFormatOnly(f: ProxyFilter, ps: seq<Entry>)
    requires f.minAnonymity != "elite"
    ensures FilterSpec(f, ps) == FormatOnly(ps)
  {
    if ps != [] {
      NonEliteChecksFormatOnly(f, ps[1..]);
      DroppedForAnonymityIff(f.minAnonymity, AnonymityOf(ps[0]));
    }
  }

  /** Under 'elite', an entry is kept iff its address is accepted and its tag is neither 'transparent' nor 'anonymous'. */
  lemma EliteKeeps(f: ProxyFilter, e: Entry)
    requires f.minAnonymity == "elite"
    ensures Passes(f, e) <==> IsValidProxyFormat(e.proxy) && AnonymityOf(e) != "transparent" && AnonymityOf(e) != "anonymous"
  {
    DroppedForAnonymityIff(f.minAnonymity, AnonymityOf(e));
  }

  /** Filtering the output again returns it unchanged. */
  lemma {:induction false} FilterIdempotent(f: ProxyFilter, ps: seq<Entry>)
    ensures FilterSpec(f, FilterSpec(f, ps)) == FilterSpec(f, ps)
  {
    if ps != [] {
      FilterIdempotent(f, ps[1..]);
      var r' := FilterSpec(f, ps[1..]);
      if Passes(f, ps[0]) {
        assert ([ps[0]] + r')[1..] == r';
        assert FilterSpec(f, [ps[0]] + r') == [ps[0]] + FilterSpec(f, r');
      } else {
        assert FilterSpec(f, ps) == r';
      }
    }
  }
}
