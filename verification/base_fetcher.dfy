/**
 * `BaseProxyFetcher`: the syntactic and country filter shared by every
 * fetcher, the prefix heuristic that guesses a country from an address,
 * and the plain-text list parser.
 */
module BaseFetch {
  import opened Wrappers
  import opened PyText
  import opened Seqs
  import opened Records

  // ---------------------------------------------------------------------
  // The address pattern  ^\d{1,3}\.\d{1,3}\.\d{1,3}\.\d{1,3}:\d{1,5}$
  // ---------------------------------------------------------------------

  /** Four dot-separated groups of one to three digits. */
  predicate IsDottedQuad(ip: string) {
    var octets := Split(ip, '.');
    |octets| == 4 && forall k :: 0 <= k < 4 ==> DigitRun(octets[k], 1, 3)
  }

  /** The whole text is a dotted quad, a colon and one to five digits; no range check. */
  predicate MatchesAddressPattern(s: string) {
    var parts := Split(s, ':');
    |parts| == 2 && IsDottedQuad(parts[0]) && DigitRun(parts[1], 1, 5)
  }

  /** A digit-only text holds neither separator. */
  lemma DigitsHaveNoSeparator(s: string)
    requires AllDigits(s)
    ensures '.' !in s && ':' !in s
  {
    forall i | 0 <= i < |s| ensures s[i] != '.' && s[i] != ':' { assert IsDigit(s[i]); }
  }

  /** Digit-only groups joined by dots split back into those groups, and hold no colon. */
  lemma SplitQuad(a: string, b: string, c: string, d: string)
    requires AllDigits(a) && AllDigits(b) && AllDigits(c) && AllDigits(d)
    ensures var ip := a + "." + b + "." + c + "." + d;
      Split(ip, '.') == [a, b, c, d] && ':' !in ip
  {
    var t3 := c + ['.'] + d;
    var t2 := b + ['.'] + t3;
    assert Split(t3, '.') == [c, d] by {
      DigitsHaveNoSeparator(c);
      DigitsHaveNoSeparator(d);
      SplitWhole(d, '.');
      SplitAfter(c, '.', d);
    }
    assert Split(t2, '.') == [b, c, d] by {
      DigitsHaveNoSeparator(b);
      SplitAfter(b, '.', t3);
    }
    assert Split(a + ['.'] + t2, '.') == [a, b, c, d] by {
      DigitsHaveNoSeparator(a);
      SplitAfter(a, '.', t2);
    }
    assert a + "." + b + "." + c + "." + d == a + ['.'] + t2;
    QuadHasNoColon(a, b, c, d);
  }

  /** Digit-only groups joined by dots hold no colon. */
  lemma QuadHasNoColon(a: string, b: string, c: string, d: string)
    requires AllDigits(a) && AllDigits(b) && AllDigits(c) && AllDigits(d)
    ensures ':' !in a + "." + b + "." + c + "." + d
  {
    DigitsHaveNoSeparator(a);
    DigitsHaveNoSeparator(b);
    DigitsHaveNoSeparator(c);
    DigitsHaveNoSeparator(d);
  }

  /** Digit-only pieces joined by dots and a colon split back into those pieces. */
  lemma SplitAddress(a: string, b: string, c: string, d: string, port: string)
    requires AllDigits(a) && AllDigits(b) && AllDigits(c) && AllDigits(d) && AllDigits(port)
    ensures var ip := a + "." + b + "." + c + "." + d;
      && Split(a + "." + b + "." + c + "." + d + ":" + port, ':') == [ip, port]
      && Split(ip, '.') == [a, b, c, d]
  {
    var ip := a + "." + b + "." + c + "." + d;
    SplitQuad(a, b, c, d);
    DigitsHaveNoSeparator(port);
    assert a + "." + b + "." + c + "." + d + ":" + port == ip + [':'] + port;
    SplitAfter(ip, ':', port);
    SplitWhole(port, ':');
  }

  /** Any four one-to-three digit groups and a one-to-five digit port form a matching address. */
  lemma AddressFromParts(a: string, b: string, c: string, d: string, port: string)
    requires DigitRun(a, 1, 3) && DigitRun(b, 1, 3) && DigitRun(c, 1, 3) && DigitRun(d, 1, 3)
    requires DigitRun(port, 1, 5)
    ensures MatchesAddressPattern(a + "." + b + "." + c + "." + d + ":" + port)
  {
    SplitAddress(a, b, c, d, port);
  }

  /** Conversely, a matching address is four such groups and a port, joined back up. */
  lemma AddressParts(s: string)
    requires MatchesAddressPattern(s)
    ensures var parts := Split(s, ':'); var octets := Split(parts[0], '.');
      s == octets[0] + "." + octets[1] + "." + octets[2] + "." + octets[3] + ":" + parts[1]
  {
    var parts := Split(s, ':');
    var octets := Split(parts[0], '.');
    JoinSplit(s, ':');
    JoinSplit(parts[0], '.');
    assert parts[1..] == [parts[1]];
    assert s == parts[0] + ":" + parts[1];
    assert octets[1..][1..] == octets[2..];
    assert octets[2..][1..] == [octets[3]];
    assert Join(octets[2..], '.') == octets[2] + "." + octets[3];
    assert Join(octets[1..], '.') == octets[1] + "." + octets[2] + "." + octets[3];
    assert parts[0] == octets[0] + "." + octets[1] + "." + octets[2] + "." + octets[3];
  }

  // ---------------------------------------------------------------------
  // The country heuristic of `_get_proxy_country`
  // ---------------------------------------------------------------------

  /** One entry of the pattern table: `^(p1|p2|...)` and the code it stands for. */
  datatype CountryPattern = CountryPattern(prefixes: seq<string>, code: string)

  /** The alternatives of the first (US) pattern, in source order: three-digit first octets ... */
  const USPrefixesLong: seq<string> :=
    ["104.16", "104.17", "144.", "146.", "147.", "148.", "149.", "152.", "153.",
     "154.", "155.", "156.", "165.", "166.", "167.", "168.", "169.", "170.", "171.",
     "172.", "173.", "174.", "192.", "198.", "199.", "204.", "205.", "206.", "207.",
     "208.", "209.", "216."]

  /** ... then two-digit ones. */
  const USPrefixesShort: seq<string> :=
    ["63.", "64.", "65.", "66.", "67.", "68.", "69.", "70.",
     "71.", "72.", "73.", "74.", "75.", "76.", "96.", "97.", "98.", "99."]

  const USPrefixes: seq<string> := USPrefixesLong + USPrefixesShort

  /** The table in declaration order; the first pattern that matches wins. */
  const CountryPatterns: seq<CountryPattern> := [
    CountryPattern(USPrefixes, "US"),
    CountryPattern(["5.", "46."], "DE"),
    CountryPattern(["185.", "95."], "RU"),
    CountryPattern(["103."], "IN"),
    CountryPattern(["1.", "116.", "118.", "121.", "122.", "123.", "124.", "125.", "222.", "223.",
                    "58.", "59.", "60.", "61."], "CN"),
    CountryPattern(["14.", "111.", "112.", "211."], "KR"),
    CountryPattern(["119.", "175.", "202."], "SG"),
    CountryPattern(["195."], "FR"),
    CountryPattern(["91."], "NL"),
    CountryPattern(["200.", "201."], "MX"),
    CountryPattern(["45.", "187.", "189."], "BR"),
    CountryPattern(["213."], "GB"),
    CountryPattern(["139."], "JP"),
    CountryPattern(["203."], "AU")
  ]

  /** The fourteen codes the heuristic can produce. */
  const HeuristicCodes: set<string> :=
    {"US", "DE", "RU", "IN", "CN", "KR", "SG", "FR", "NL", "MX", "BR", "GB", "JP", "AU"}

  /** `re.match(pattern, ip)`: one of the alternatives is a prefix of `ip`. */
  predicate PatternMatches(p: CountryPattern, ip: string) {
    exists k :: 0 <= k < |p.prefixes| && p.prefixes[k] <= ip
  }

  /** The code of the first pattern of `table` that matches `ip`, else 'unknown'. */
  function FirstMatch(table: seq<CountryPattern>, ip: string): string {
    if table == [] then "unknown"
    else if PatternMatches(table[0], ip) then table[0].code
    else FirstMatch(table[1..], ip)
  }

  /** The pattern loop of `_get_proxy_country`: the first pattern that matches gives the code, else 'unknown'. */
  method MatchTable(table: seq<CountryPattern>, ip: string) returns (code: string)
    ensures code == FirstMatch(table, ip)
  {
    var i := 0;
    while i < |table|
      invariant 0 <= i <= |table|
      invariant FirstMatch(table[i..], ip) == FirstMatch(table, ip)
    {
      assert table[i..][1..] == table[i + 1..];
      if PatternMatches(table[i], ip) {
        return table[i].code;
      }
      i := i + 1;
    }
    return "unknown";
  }

  /** `proxy.split(':')[0]`. */
  function HostPart(proxy: string): string {
    Split(proxy, ':')[0]
  }

  /**
   * What `_get_proxy_country` computes when the answer is not cached: the
   * code of the first pattern the host matches, so only ever one of the
   * fourteen codes or 'unknown'.
   */
  function DetectCountry(proxy: string): (code: string)
    ensures code in HeuristicCodes || code == "unknown"
  {
    FirstMatchFromTable(CountryPatterns, HostPart(proxy));
    TableCodes();
    FirstMatch(CountryPatterns, HostPart(proxy))
  }

  /** The first matching pattern, and no later one, decides the code. */
  lemma {:induction false} FirstMatchIsFirst(table: seq<CountryPattern>, ip: string, k: nat)
    requires k < |table| && PatternMatches(table[k], ip)
    requires forall j :: 0 <= j < k ==> !PatternMatches(table[j], ip)
    ensures FirstMatch(table, ip) == table[k].code
  {
    if k > 0 {
      assert !PatternMatches(table[0], ip);
      FirstMatchIsFirst(table[1..], ip, k - 1);
    }
  }

  /** When no pattern matches, the answer is 'unknown'. */
  lemma {:induction false} FirstMatchNone(table: seq<CountryPattern>, ip: string)
    requires forall j :: 0 <= j < |table| ==> !PatternMatches(table[j], ip)
    ensures FirstMatch(table, ip) == "unknown"
  {
    if table != [] {
      assert !PatternMatches(table[0], ip);
      FirstMatchNone(table[1..], ip);
    }
  }

  lemma {:induction false} FirstMatchFromTable(table: seq<CountryPattern>, ip: string)
    ensures FirstMatch(table, ip) == "unknown" || exists k :: 0 <= k < |table| && FirstMatch(table, ip) == table[k].code
  {
    if table != [] && !PatternMatches(table[0], ip) {
      FirstMatchFromTable(table[1..], ip);
      if FirstMatch(table, ip) != "unknown" {
        var k :| 0 <= k < |table[1..]| && FirstMatch(table[1..], ip) == table[1..][k].code;
        assert FirstMatch(table, ip) == table[k + 1].code;
      }
    }
  }

  lemma TableCodes()
    ensures forall k :: 0 <= k < |CountryPatterns| ==> CountryPatterns[k].code in HeuristicCodes
  {
  }

  /** Only the text before the first ':' is looked at. */
  lemma DetectCountryLooksAtHost(ip: string, rest: string)
    requires ':' !in ip
    ensures DetectCountry(ip + ":" + rest) == FirstMatch(CountryPatterns, ip)
  {
    assert ip + ":" + rest == ip + [':'] + rest;
    SplitAfter(ip, ':', rest);
  }

  /** The prefix "104.16" has no trailing dot, so it also claims 104.160.0.0/11 and the like. */
  lemma DetectCountryPrefixQuirk()
    ensures FirstMatch(CountryPatterns, "104.160.0.1") == "US"
  {
    assert CountryPatterns[0].prefixes == USPrefixes;
    assert USPrefixes[0] == "104.16";
    assert "104.160.0.1"[..6] == "104.16";
    FirstMatchIsFirst(CountryPatterns, "104.160.0.1", 0);
  }

  // ---------------------------------------------------------------------
  // One entry through the loop body of `_filter_and_deduplicate`
  // ---------------------------------------------------------------------

  /** The address is present and has the pattern's shape. */
  predicate WellFormed(e: Entry) {
    e.proxy != "" && MatchesAddressPattern(e.proxy)
  }

  /** The entry's country is unknown (compared upper-cased) and is not the target itself. */
  predicate NeedsHeuristic(e: Entry, target: string) {
    target != "" && WellFormed(e)
    && Upper(CountryOf(e)) != Upper(target) && Upper(CountryOf(e)) == "UNKNOWN"
  }

  /** The entry after the loop body has looked at it: an unknown country is overwritten with the guess. */
  function Resolve(e: Entry, target: string): (r: Entry)
    ensures r == e || (NeedsHeuristic(e, target) && r == e.(country := Some(DetectCountry(e.proxy))))
  {
    if NeedsHeuristic(e, target) then e.(country := Some(DetectCountry(e.proxy))) else e
  }

  /** The entry is selected: well formed and, with a target, of the target's country once resolved. */
  predicate Selected(e: Entry, target: string) {
    WellFormed(e) && (target == "" || Upper(CountryOf(Resolve(e, target))) == Upper(target))
  }

  /** How the loop body treats one entry. */
  datatype Verdict =
    | Skipped          // `continue` before the append
    | KeptByHeuristic  // appended on the heuristic path, which `continue`s past the limit check
    | Kept             // appended, then the limit check

  /** The body's verdict, the entry as it stands afterwards, and whether the heuristic ran. */
  datatype Screening = Screening(verdict: Verdict, entry: Entry, probed: bool)

  function Screen(e: Entry, target: string): Screening {
    if e.proxy == "" || !MatchesAddressPattern(e.proxy) then Screening(Skipped, e, false)
    else if target == "" then Screening(Kept, e, false)
    else
      var proxyCountry := Upper(CountryOf(e));
      if proxyCountry == Upper(target) then Screening(Kept, e, false)
      else if proxyCountry == "UNKNOWN" then
        var detected := DetectCountry(e.proxy);
        var e' := e.(country := Some(detected));
        Screening(if Upper(detected) == Upper(target) then KeptByHeuristic else Skipped, e', true)
      else Screening(Skipped, e, false)
  }

  /** The verdict agrees with `Selected`, the entry with `Resolve`, and the heuristic runs exactly when needed. */
  lemma ScreenAgrees(e: Entry, target: string)
    ensures Screen(e, target).verdict != Skipped <==> Selected(e, target)
    ensures Screen(e, target).verdict == KeptByHeuristic ==> NeedsHeuristic(e, target)
    ensures Screen(e, target).entry == Resolve(e, target)
    ensures Screen(e, target).probed <==> NeedsHeuristic(e, target)
  {
  }

  // ---------------------------------------------------------------------
  // The whole loop of `_filter_and_deduplicate`
  // ---------------------------------------------------------------------

  /**
   * The outcome of the loop: the appended entries, the input list as it
   * stands afterwards (entries the loop reached may have a new country,
   * the rest are untouched), and the addresses handed to the heuristic.
   */
  datatype FilterRun = FilterRun(kept: seq<Entry>, updated: seq<Entry>, probed: set<string>)

  /** The loop from some position on, `count` entries having been appended before it. */
  function FilterFrom(ps: seq<Entry>, target: string, maxProxies: int, count: nat): (r: FilterRun)
    ensures |r.updated| == |ps|
    decreases |ps|
  {
    if ps == [] then FilterRun([], [], {})
    else
      var s := Screen(ps[0], target);
      var here: set<string> := if s.probed then {ps[0].proxy} else {};
      match s.verdict
      case Skipped =>
        var r := FilterFrom(ps[1..], target, maxProxies, count);
        FilterRun(r.kept, [s.entry] + r.updated, here + r.probed)
      case KeptByHeuristic =>
        var r := FilterFrom(ps[1..], target, maxProxies, count + 1);
        FilterRun([s.entry] + r.kept, [s.entry] + r.updated, here + r.probed)
      case Kept =>
        if count + 1 >= maxProxies then FilterRun([s.entry], [s.entry] + ps[1..], here)
        else
          var r := FilterFrom(ps[1..], target, maxProxies, count + 1);
          FilterRun([s.entry] + r.kept, [s.entry] + r.updated, here + r.probed)
  }

  /** The addresses one step hands to the heuristic. */
  function ProbedBy(e: Entry, target: string): set<string> {
    if Screen(e, target).probed then {e.proxy} else {}
  }

  /** A skipped entry: the loop from `i` is the loop from `i + 1`, with the entry as it stands put in front. */
  lemma FilterStepSkipped(ps: seq<Entry>, i: nat, target: string, maxProxies: int, count: nat)
    requires i < |ps| && Screen(ps[i], target).verdict == Skipped
    ensures var r := FilterFrom(ps[i + 1..], target, maxProxies, count);
      FilterFrom(ps[i..], target, maxProxies, count)
        == FilterRun(r.kept, [Screen(ps[i], target).entry] + r.updated, ProbedBy(ps[i], target) + r.probed)
  {
    assert ps[i..][0] == ps[i] && ps[i..][1..] == ps[i + 1..];
  }

  /** A kept entry below the limit: it is put in front of what the loop from `i + 1` keeps. */
  lemma FilterStepKept(ps: seq<Entry>, i: nat, target: string, maxProxies: int, count: nat)
    requires i < |ps| && Screen(ps[i], target).verdict != Skipped
    requires Screen(ps[i], target).verdict == Kept ==> count + 1 < maxProxies
    ensures var r := FilterFrom(ps[i + 1..], target, maxProxies, count + 1);
      var e := Screen(ps[i], target).entry;
      FilterFrom(ps[i..], target, maxProxies, count)
        == FilterRun([e] + r.kept, [e] + r.updated, ProbedBy(ps[i], target) + r.probed)
  {
    assert ps[i..][0] == ps[i] && ps[i..][1..] == ps[i + 1..];
  }

  /**
   * After the entries before `i`: `kept` so far, `done` the entries already
   * passed as they stand now, and `probed` the addresses handed to the
   * heuristic; the rest of the loop completes the whole run.
   */
  ghost predicate FilterSoFar(ps: seq<Entry>, target: string, maxProxies: int, i: nat,
                              kept: seq<Entry>, done: seq<Entry>, probed: set<string>)
  {
    i <= |ps| &&
    var r := FilterFrom(ps[i..], target, maxProxies, |kept|);
    FilterFrom(ps, target, maxProxies, 0) == FilterRun(kept + r.kept, done + r.updated, probed + r.probed)
  }

  /** A skipped entry moves the position on, the entry passed as it stands. */
  lemma FilterAdvanceSkipped(ps: seq<Entry>, target: string, maxProxies: int, i: nat,
                             kept: seq<Entry>, done: seq<Entry>, probed: set<string>)
    requires i < |ps| && FilterSoFar(ps, target, maxProxies, i, kept, done, probed)
    requires Screen(ps[i], target).verdict == Skipped
    ensures FilterSoFar(ps, target, maxProxies, i + 1, kept,
                        done + [Screen(ps[i], target).entry], probed + ProbedBy(ps[i], target))
  {
    FilterStepSkipped(ps, i, target, maxProxies, |kept|);
    var e := Screen(ps[i], target).entry;
    var r := FilterFrom(ps[i + 1..], target, maxProxies, |kept|);
    assert done + [e] + r.updated == done + ([e] + r.updated);
  }

  /** A kept entry below the limit moves the position on, and is kept. */
  lemma FilterAdvanceKept(ps: seq<Entry>, target: string, maxProxies: int, i: nat,
                          kept: seq<Entry>, done: seq<Entry>, probed: set<string>)
    requires i < |ps| && FilterSoFar(ps, target, maxProxies, i, kept, done, probed)
    requires Screen(ps[i], target).verdict != Skipped
    requires Screen(ps[i], target).verdict == Kept ==> |kept| + 1 < maxProxies
    ensures var e := Screen(ps[i], target).entry;
      FilterSoFar(ps, target, maxProxies, i + 1, kept + [e], done + [e], probed + ProbedBy(ps[i], target))
  {
    FilterStepKept(ps, i, target, maxProxies, |kept|);
    var e := Screen(ps[i], target).entry;
    assert |kept + [e]| == |kept| + 1;
    ShiftKept(FilterFrom(ps, target, maxProxies, 0), FilterFrom(ps[i..], target, maxProxies, |kept|),
              FilterFrom(ps[i + 1..], target, maxProxies, |kept| + 1), kept, done, probed, e, ProbedBy(ps[i], target));
  }

  /** Moving one kept entry from the rest of the run to the part already done leaves the whole run as it is. */
  lemma ShiftKept(whole: FilterRun, rest: FilterRun, later: FilterRun, kept: seq<Entry>, done: seq<Entry>,
                  probed: set<string>, e: Entry, pb: set<string>)
    requires whole == FilterRun(kept + rest.kept, done + rest.updated, probed + rest.probed)
    requires rest == FilterRun([e] + later.kept, [e] + later.updated, pb + later.probed)
    ensures whole == FilterRun((kept + [e]) + later.kept, (done + [e]) + later.updated, (probed + pb) + later.probed)
  {
    assert kept + ([e] + later.kept) == (kept + [e]) + later.kept;
    assert done + ([e] + later.updated) == (done + [e]) + later.updated;
  }

  /** A kept entry that reaches the limit ends the loop; the rest of the list is untouched. */
  lemma FilterBreak(ps: seq<Entry>, target: string, maxProxies: int, i: nat,
                    kept: seq<Entry>, done: seq<Entry>, probed: set<string>)
    requires i < |ps| && FilterSoFar(ps, target, maxProxies, i, kept, done, probed)
    requires WellFormed(ps[i]) && (target == "" || Upper(CountryOf(ps[i])) == Upper(target))
    requires |kept| + 1 >= maxProxies
    ensures FilterFrom(ps, target, maxProxies, 0) == FilterRun(kept + [ps[i]], done + [ps[i]] + ps[i + 1..], probed)
  {
    assert ps[i..][0] == ps[i] && ps[i..][1..] == ps[i + 1..];
  }

  // The loop body's branches, each stated in the terms the body tests.

  /** No address, or not of the pattern's shape: `continue`. */
  lemma AdvanceMalformed(ps: seq<Entry>, target: string, maxProxies: int, i: nat,
                         kept: seq<Entry>, done: seq<Entry>, probed: set<string>)
    requires i < |ps| && FilterSoFar(ps, target, maxProxies, i, kept, done, probed)
    requires ps[i].proxy == "" || !MatchesAddressPattern(ps[i].proxy)
    ensures FilterSoFar(ps, target, maxProxies, i + 1, kept, done + [ps[i]], probed)
  {
    FilterAdvanceSkipped(ps, target, maxProxies, i, kept, done, probed);
    assert probed + {} == probed;
  }

  /** A known country other than the target: `continue`. */
  lemma AdvanceOtherCountry(ps: seq<Entry>, target: string, maxProxies: int, i: nat,
                            kept: seq<Entry>, done: seq<Entry>, probed: set<string>)
    requires i < |ps| && FilterSoFar(ps, target, maxProxies, i, kept, done, probed)
    requires WellFormed(ps[i]) && target != ""
    requires Upper(CountryOf(ps[i])) != Upper(target) && Upper(CountryOf(ps[i])) != "UNKNOWN"
    ensures FilterSoFar(ps, target, maxProxies, i + 1, kept, done + [ps[i]], probed)
  {
    FilterAdvanceSkipped(ps, target, maxProxies, i, kept, done, probed);
    assert probed + {} == probed;
  }

  /** An unknown country: it is overwritten with the guess, and kept if the guess is the target. */
  lemma AdvanceGuessed(ps: seq<Entry>, target: string, maxProxies: int, i: nat,
                       kept: seq<Entry>, done: seq<Entry>, probed: set<string>, detected: string)
    requires i < |ps| && FilterSoFar(ps, target, maxProxies, i, kept, done, probed)
    requires WellFormed(ps[i]) && target != ""
    requires Upper(CountryOf(ps[i])) != Upper(target) && Upper(CountryOf(ps[i])) == "UNKNOWN"
    requires detected == DetectCountry(ps[i].proxy)
    ensures var e := ps[i].(country := Some(detected));
      FilterSoFar(ps, target, maxProxies, i + 1,
                  kept + (if Upper(detected) == Upper(target) then [e] else []),
                  done + [e], probed + {ps[i].proxy})
  {
    if Upper(detected) == Upper(target) {
      FilterAdvanceKept(ps, target, maxProxies, i, kept, done, probed);
    } else {
      FilterAdvanceSkipped(ps, target, maxProxies, i, kept, done, probed);
      assert kept + [] == kept;
    }
  }

  /** The target's country, or no target at all: appended, and the limit not reached. */
  lemma AdvanceSelected(ps: seq<Entry>, target: string, maxProxies: int, i: nat,
                        kept: seq<Entry>, done: seq<Entry>, probed: set<string>)
    requires i < |ps| && FilterSoFar(ps, target, maxProxies, i, kept, done, probed)
    requires WellFormed(ps[i]) && (target == "" || Upper(CountryOf(ps[i])) == Upper(target))
    requires |kept| + 1 < maxProxies
    ensures FilterSoFar(ps, target, maxProxies, i + 1, kept + [ps[i]], done + [ps[i]], probed)
  {
    FilterAdvanceKept(ps, target, maxProxies, i, kept, done, probed);
    assert probed + {} == probed;
  }

  /** At the end of the list the run is complete. */
  lemma FilterDone(ps: seq<Entry>, target: string, maxProxies: int,
                   kept: seq<Entry>, done: seq<Entry>, probed: set<string>)
    requires FilterSoFar(ps, target, maxProxies, |ps|, kept, done, probed)
    ensures FilterFrom(ps, target, maxProxies, 0) == FilterRun(kept, done, probed)
  {
    assert ps[|ps|..] == [];
    assert kept + [] == kept && done + [] == done;
  }

  /** Every kept entry has a non-empty address of the pattern's shape (no range check is made). */
  lemma {:induction false} FilterKeptWellFormed(ps: seq<Entry>, target: string, maxProxies: int, count: nat)
    ensures forall e :: e in FilterFrom(ps, target, maxProxies, count).kept ==>
              e.proxy != "" && MatchesAddressPattern(e.proxy)
    decreases |ps|
  {
    if ps != [] {
      FilterKeptWellFormed(ps[1..], target, maxProxies, count);
      FilterKeptWellFormed(ps[1..], target, maxProxies, count + 1);
    }
  }

  /**
   * The kept entries are an order-preserving subsequence of the list as it
   * stands afterwards; that list has the input's length, and each of its
   * entries is the input's own, or the input's with the guessed country.
   */
  lemma {:induction false} FilterKeptSubsequence(ps: seq<Entry>, target: string, maxProxies: int, count: nat)
    ensures var r := FilterFrom(ps, target, maxProxies, count);
      && IsSubseq(r.kept, r.updated)
      && |r.updated| == |ps|
      && forall i :: 0 <= i < |ps| ==>
           r.updated[i] == ps[i]
           || (NeedsHeuristic(ps[i], target) && r.updated[i] == ps[i].(country := Some(DetectCountry(ps[i].proxy))))
    decreases |ps|
  {
    if ps != [] {
      var s := Screen(ps[0], target);
      ScreenAgrees(ps[0], target);
      var r := FilterFrom(ps, target, maxProxies, count);
      if s.verdict == Kept && count + 1 >= maxProxies {
        assert r.updated[1..] == ps[1..];
        SubseqOfPrefix([s.entry], r.updated);
      } else {
        var c := if s.verdict == Skipped then count else count + 1;
        FilterKeptSubsequence(ps[1..], target, maxProxies, c);
        var r' := FilterFrom(ps[1..], target, maxProxies, c);
        assert r.updated == [s.entry] + r'.updated;
        assert r.updated[1..] == r'.updated;
        if s.verdict == Skipped {
          assert r.kept == r'.kept;
          if r.kept != [] {
            assert IsSubseq(r.kept, r.updated[1..]);
          }
        } else {
          assert r.kept == [s.entry] + r'.kept;
          assert r.kept[1..] == r'.kept;
        }
        forall i | 0 < i < |ps|
          ensures r.updated[i] == ps[i]
            || (NeedsHeuristic(ps[i], target) && r.updated[i] == ps[i].(country := Some(DetectCountry(ps[i].proxy))))
        {
          assert r.updated[i] == r'.updated[i - 1] && ps[i] == ps[1..][i - 1];
        }
      }
    }
  }

  /** The input resolved entry by entry, as a loop that never breaks leaves it. */
  function ResolveAll(ps: seq<Entry>, target: string): (r: seq<Entry>)
    ensures |r| == |ps|
  {
    if ps == [] then [] else [Resolve(ps[0], target)] + ResolveAll(ps[1..], target)
  }

  /** The selected entries, resolved, in input order. */
  function SelectAll(ps: seq<Entry>, target: string): seq<Entry> {
    if ps == [] then []
    else (if Selected(ps[0], target) then [Resolve(ps[0], target)] else []) + SelectAll(ps[1..], target)
  }

  /**
   * With a country set and a limit the list cannot reach, the loop keeps
   * exactly the selected entries: an entry is kept iff its upper-cased
   * country is the target, or it is unknown and the heuristic answers the
   * target. Every entry it reaches is resolved.
   */
  lemma {:induction false} FilterWithCountry(ps: seq<Entry>, target: string, maxProxies: int, count: nat)
    requires target != "" && maxProxies > count + |ps|
    ensures FilterFrom(ps, target, maxProxies, count).kept == SelectAll(ps, target)
    ensures FilterFrom(ps, target, maxProxies, count).updated == ResolveAll(ps, target)
    decreases |ps|
  {
    if ps != [] {
      ScreenAgrees(ps[0], target);
      FilterWithCountry(ps[1..], target, maxProxies, count);
      FilterWithCountry(ps[1..], target, maxProxies, count + 1);
    }
  }

  /** Each selected entry, resolved, carries the target's country (compared upper-cased). */
  lemma {:induction false} SelectAllCountry(ps: seq<Entry>, target: string)
    requires target != ""
    ensures forall e :: e in SelectAll(ps, target) ==> Upper(CountryOf(e)) == Upper(target)
  {
    if ps != [] {
      SelectAllCountry(ps[1..], target);
    }
  }

  /**
   * Under any limit the loop keeps a prefix of the selected entries: it
   * appends them in order and only ever stops early.
   */
  lemma {:induction false} KeptPrefixOfSelected(ps: seq<Entry>, target: string, maxProxies: int, count: nat)
    ensures FilterFrom(ps, target, maxProxies, count).kept <= SelectAll(ps, target)
    decreases |ps|
  {
    if ps != [] {
      ScreenAgrees(ps[0], target);
      KeptPrefixOfSelected(ps[1..], target, maxProxies, count);
      KeptPrefixOfSelected(ps[1..], target, maxProxies, count + 1);
    }
  }

  /** With a country set, whatever the limit, every kept entry carries that country (compared upper-cased). */
  lemma FilterKeepsTarget(ps: seq<Entry>, target: string, maxProxies: int)
    requires target != ""
    ensures forall e :: e in FilterFrom(ps, target, maxProxies, 0).kept ==> Upper(CountryOf(e)) == Upper(target)
  {
    KeptPrefixOfSelected(ps, target, maxProxies, 0);
    SelectAllCountry(ps, target);
  }

  /**
   * Without a country nothing is resolved, and the loop keeps the first
   * well-formed entries: `maxProxies - count` of them, but at least one
   * when any exists (a limit of zero or less still lets one through).
   */
  lemma FilterWithoutCountry(ps: seq<Entry>, maxProxies: int, count: nat)
    ensures FilterFrom(ps, "", maxProxies, count).kept
         == Prefix(SelectAll(ps, ""), if maxProxies - count >= 1 then maxProxies - count else 1)
    ensures FilterFrom(ps, "", maxProxies, count).updated == ps
  {
    KeptWithoutCountry(ps, maxProxies, count);
    UpdatedWithoutCountry(ps, maxProxies, count);
  }

  /** Without a country the body never runs the heuristic: it keeps exactly the well-formed entries, unchanged. */
  lemma ScreenWithoutCountry(e: Entry)
    ensures Screen(e, "").entry == e && !Screen(e, "").probed
    ensures Screen(e, "").verdict == (if Selected(e, "") then Kept else Skipped)
    ensures Resolve(e, "") == e
  {
  }

  lemma {:induction false} KeptWithoutCountry(ps: seq<Entry>, maxProxies: int, count: nat)
    ensures FilterFrom(ps, "", maxProxies, count).kept
         == Prefix(SelectAll(ps, ""), if maxProxies - count >= 1 then maxProxies - count else 1)
    decreases |ps|
  {
    if ps != [] {
      ScreenWithoutCountry(ps[0]);
      var rest := SelectAll(ps[1..], "");
      if Selected(ps[0], "") {
        assert SelectAll(ps, "") == [ps[0]] + rest;
        if count + 1 >= maxProxies {
          assert FilterFrom(ps, "", maxProxies, count).kept == [ps[0]];
          assert Prefix([ps[0]] + rest, 1) == [ps[0]];
        } else {
          KeptWithoutCountry(ps[1..], maxProxies, count + 1);
          var lim := maxProxies - count;
          assert FilterFrom(ps, "", maxProxies, count).kept == [ps[0]] + Prefix(rest, lim - 1);
          assert Prefix([ps[0]] + rest, lim) == [ps[0]] + Prefix(rest, lim - 1);
        }
      } else {
        KeptWithoutCountry(ps[1..], maxProxies, count);
        assert SelectAll(ps, "") == rest;
      }
    }
  }

  lemma {:induction false} UpdatedWithoutCountry(ps: seq<Entry>, maxProxies: int, count: nat)
    ensures FilterFrom(ps, "", maxProxies, count).updated == ps
    decreases |ps|
  {
    if ps != [] {
      ScreenWithoutCountry(ps[0]);
      assert [ps[0]] + ps[1..] == ps;
      if Selected(ps[0], "") && count + 1 >= maxProxies {
        assert FilterFrom(ps, "", maxProxies, count).updated == [ps[0]] + ps[1..];
      } else if Selected(ps[0], "") {
        UpdatedWithoutCountry(ps[1..], maxProxies, count + 1);
      } else {
        UpdatedWithoutCountry(ps[1..], maxProxies, count);
      }
    }
  }

  /** Without a country and with a limit of at least one, no more than the limit is returned. */
  lemma FilterBoundWithoutCountry(ps: seq<Entry>, maxProxies: int)
    requires maxProxies >= 1
    ensures |FilterFrom(ps, "", maxProxies, 0).kept| <= maxProxies
  {
    FilterWithoutCountry(ps, maxProxies, 0);
  }

  /** Repeated addresses survive: `seen` is only counted, never used to drop an entry. */
  lemma FilterKeepsDuplicates(e: Entry, maxProxies: int)
    requires WellFormed(e) && maxProxies >= 2
    ensures FilterFrom([e, e], "", maxProxies, 0).kept == [e, e]
  {
    FilterWithoutCountry([e, e], maxProxies, 0);
    assert [e, e][1..] == [e];
    assert Selected(e, "") && Resolve(e, "") == e;
    assert SelectAll([e], "") == [e];
    assert SelectAll([e, e], "") == [e, e];
  }

  /** An entry kept by the heuristic is appended whatever the count and the limit. */
  lemma HeuristicIgnoresLimit(e: Entry, rest: seq<Entry>, target: string, maxProxies: int, count: nat)
    requires Screen(e, target).verdict == KeptByHeuristic
    ensures FilterFrom([e] + rest, target, maxProxies, count).kept
         == [Resolve(e, target)] + FilterFrom(rest, target, maxProxies, count + 1).kept
  {
    assert ([e] + rest)[1..] == rest;
    ScreenAgrees(e, target);
  }

  /** With a country set, two heuristic-kept entries both come back, whatever the limit. */
  lemma FilterBoundExceededWithCountry(a: Entry, b: Entry, target: string, maxProxies: int)
    requires Screen(a, target).verdict == KeptByHeuristic && Screen(b, target).verdict == KeptByHeuristic
    ensures |FilterFrom([a, b], target, maxProxies, 0).kept| == 2
  {
    HeuristicIgnoresLimit(b, [], target, maxProxies, 1);
    assert [b] + [] == [b];
    HeuristicIgnoresLimit(a, [b], target, maxProxies, 0);
    assert [a] + [b] == [a, b];
  }

  /** Such entries exist: unknown-country addresses under a US prefix, with target 'US'. */
  lemma HeuristicExample144()
    ensures Screen(NewEntry("144.1.1.1:80", "unknown", "unknown", "s", 0), "US").verdict == KeptByHeuristic
  {
    assert USPrefixes[2] == "144." == "144" + ".";
    assert DigitRun("144", 1, 3);
    assert "144" + ".1.1.1:80" == "144.1.1.1:80";
    KeptByHeuristicUS("144", 2);
  }

  /** For instance, with target 'US' and a limit of one, the same unknown-country address twice comes back twice. */
  lemma FilterBoundExceededExample(a: Entry)
    requires a == NewEntry("144.1.1.1:80", "unknown", "unknown", "s", 0)
    ensures |FilterFrom([a, a], "US", 1, 0).kept| == 2
  {
    HeuristicExample144();
    FilterBoundExceededWithCountry(a, a, "US", 1);
  }

  /** An unknown-country address of a US prefix is kept by the heuristic when the target is 'US'. */
  lemma KeptByHeuristicUS(first: string, k: nat)
    requires k < |USPrefixes| && USPrefixes[k] == first + "."
    requires DigitRun(first, 1, 3)
    ensures Screen(NewEntry(first + ".1.1.1:80", "unknown", "unknown", "s", 0), "US").verdict == KeptByHeuristic
  {
    var e := NewEntry(first + ".1.1.1:80", "unknown", "unknown", "s", 0);
    GuessedUS(first, k);
    assert Upper("unknown") == "UNKNOWN" && Upper("US") == "US";
    HeuristicVerdict(e, "US");
  }

  /** A well-formed entry of unknown country whose guess is the target is kept by the heuristic. */
  lemma HeuristicVerdict(e: Entry, target: string)
    requires WellFormed(e) && target != ""
    requires Upper(CountryOf(e)) == "UNKNOWN" != Upper(target) && Upper(DetectCountry(e.proxy)) == Upper(target)
    ensures Screen(e, target).verdict == KeptByHeuristic
  {
  }

  /** A well-formed address whose first octet is one of the US prefixes is guessed as 'US'. */
  lemma GuessedUS(first: string, k: nat)
    requires k < |USPrefixes| && USPrefixes[k] == first + "."
    requires DigitRun(first, 1, 3)
    ensures var proxy := first + ".1.1.1:80";
      WellFormed(NewEntry(proxy, "unknown", "unknown", "s", 0)) && DetectCountry(proxy) == "US"
  {
    var ip := first + ".1.1.1";
    AddressFromParts(first, "1", "1", "1", "80");
    assert first + "." + "1" + "." + "1" + "." + "1" + ":" + "80" == first + ".1.1.1:80";
    assert ':' !in ip by {
      forall i | 0 <= i < |ip| ensures ip[i] != ':' {
        if i < |first| { assert ip[i] == first[i] && IsDigit(first[i]); }
      }
    }
    DetectCountryLooksAtHost(ip, "80");
    assert ip + ":" + "80" == first + ".1.1.1:80";
    assert ip[..|first| + 1] == first + ".";
    assert CountryPatterns[0].prefixes == USPrefixes;
    assert PatternMatches(CountryPatterns[0], ip);
    FirstMatchIsFirst(CountryPatterns, ip, 0);
  }

  /** A limit of zero or less still lets the first selected entry through, and only it. */
  lemma FilterNonPositiveLimit(ps: seq<Entry>, target: string, maxProxies: int)
    requires target == "" && maxProxies <= 0 && SelectAll(ps, "") != []
    ensures FilterFrom(ps, target, maxProxies, 0).kept == [SelectAll(ps, "")[0]]
  {
    FilterWithoutCountry(ps, maxProxies, 0);
  }

  // ---------------------------------------------------------------------
  // `_parse_text_list`
  // ---------------------------------------------------------------------

  /** A stripped line is taken: non-blank, not a comment, and of the address pattern's shape. */
  predicate AcceptedLine(line: string) {
    line != "" && line[0] != '#' && MatchesAddressPattern(line)
  }

  /** The entries the parser appends for `lines`, in order. */
  function ParsedLines(lines: seq<string>, sourceName: string, countryTag: string, now: int): seq<Entry> {
    if lines == [] then []
    else
      var line := Strip(lines[0]);
      (if AcceptedLine(line) then [NewEntry(line, countryTag, "unknown", sourceName, now)] else [])
      + ParsedLines(lines[1..], sourceName, countryTag, now)
  }

  /** One more line at the end of the text: the parse grows by that line's entry, if it has one. */
  lemma {:induction false} ParsedLinesSnoc(lines: seq<string>, line: string, sourceName: string, countryTag: string, now: int)
    ensures ParsedLines(lines + [line], sourceName, countryTag, now)
         == ParsedLines(lines, sourceName, countryTag, now)
            + (if AcceptedLine(Strip(line)) then [NewEntry(Strip(line), countryTag, "unknown", sourceName, now)] else [])
  {
    if lines != [] {
      assert (lines + [line])[1..] == lines[1..] + [line];
      ParsedLinesSnoc(lines[1..], line, sourceName, countryTag, now);
      var head := Strip(lines[0]);
      var h := if AcceptedLine(head) then [NewEntry(head, countryTag, "unknown", sourceName, now)] else [];
      var t := if AcceptedLine(Strip(line)) then [NewEntry(Strip(line), countryTag, "unknown", sourceName, now)] else [];
      assert h + (ParsedLines(lines[1..], sourceName, countryTag, now) + t)
          == (h + ParsedLines(lines[1..], sourceName, countryTag, now)) + t;
    } else {
      assert [line][1..] == [];
    }
  }

  /** The stripped lines, in order. */
  function StrippedLines(lines: seq<string>): (r: seq<string>)
    ensures |r| == |lines| && forall i :: 0 <= i < |lines| ==> r[i] == Strip(lines[i])
  {
    seq(|lines|, i requires 0 <= i < |lines| => Strip(lines[i]))
  }

  /** The addresses of a list of entries. */
  function Addresses(es: seq<Entry>): (r: seq<string>)
    ensures |r| == |es| && forall i :: 0 <= i < |es| ==> r[i] == es[i].proxy
  {
    seq(|es|, i requires 0 <= i < |es| => es[i].proxy)
  }

  /** The addresses of a list with one more entry in front. */
  lemma AddressesCons(e: Entry, es: seq<Entry>)
    ensures Addresses([e] + es) == [e.proxy] + Addresses(es)
  {
    assert forall i :: 0 < i <= |es| ==> ([e] + es)[i] == es[i - 1];
  }

  /**
   * The parser on one text: each stripped line is taken or not, in order.
   * Every entry carries the given country tag, anonymity 'unknown', the
   * source name and the clock reading.
   */
  method ParseTextList(text: string, sourceName: string, countryTag: string, now: int) returns (result: seq<Entry>)
    ensures result == ParsedLines(SplitLines(text), sourceName, countryTag, now)
  {
    var lines := SplitLines(text);
    result := [];
    var i := 0;
    while i < |lines|
      invariant 0 <= i <= |lines|
      invariant result == ParsedLines(lines[..i], sourceName, countryTag, now)
    {
      assert lines[..i + 1] == lines[..i] + [lines[i]];
      ParsedLinesSnoc(lines[..i], lines[i], sourceName, countryTag, now);
      result := ParseLine(lines[i], sourceName, countryTag, now, result);
      i := i + 1;
    }
    assert lines[..|lines|] == lines;
  }

  /** The loop body on one line: a stripped, non-comment line of the address shape is appended. */
  method ParseLine(raw: string, sourceName: string, countryTag: string, now: int, result: seq<Entry>)
    returns (result': seq<Entry>)
    ensures AcceptedLine(Strip(raw)) ==> result' == result + [NewEntry(Strip(raw), countryTag, "unknown", sourceName, now)]
    ensures !AcceptedLine(Strip(raw)) ==> result' == result
  {
    result' := result;
    var line := Strip(raw);
    if line != [] && line[0] != '#' {
      if MatchesAddressPattern(line) {
        result' := result + [NewEntry(line, countryTag, "unknown", sourceName, now)];
      }
    }
  }

  /**
   * The addresses parsed are exactly the accepted stripped lines, in order:
   * an order-preserving subsequence of the stripped lines, every one of them
   * accepted, and none of the accepted ones missing.
   */
  lemma ParsedLinesExact(lines: seq<string>, sourceName: string, countryTag: string, now: int)
    ensures var r := ParsedLines(lines, sourceName, countryTag, now);
      && IsSubseq(Addresses(r), StrippedLines(lines))
      && (forall e :: e in r ==>
            AcceptedLine(e.proxy) && e == NewEntry(e.proxy, countryTag, "unknown", sourceName, now))
      && (forall i :: 0 <= i < |lines| && AcceptedLine(Strip(lines[i])) ==> Strip(lines[i]) in Addresses(r))
  {
    ParsedLinesInOrder(lines, sourceName, countryTag, now);
    ParsedLinesShape(lines, sourceName, countryTag, now);
    ParsedLinesComplete(lines, sourceName, countryTag, now);
  }

  /** The parsed addresses are an order-preserving subsequence of the stripped lines. */
  lemma {:induction false} ParsedLinesInOrder(lines: seq<string>, sourceName: string, countryTag: string, now: int)
    ensures IsSubseq(Addresses(ParsedLines(lines, sourceName, countryTag, now)), StrippedLines(lines))
  {
    if lines != [] {
      var r := ParsedLines(lines, sourceName, countryTag, now);
      var r' := ParsedLines(lines[1..], sourceName, countryTag, now);
      ParsedLinesInOrder(lines[1..], sourceName, countryTag, now);
      var line := Strip(lines[0]);
      assert StrippedLines(lines) == [line] + StrippedLines(lines[1..]);
      if AcceptedLine(line) {
        AddressesCons(NewEntry(line, countryTag, "unknown", sourceName, now), r');
        SubseqCons(line, Addresses(r'), StrippedLines(lines[1..]));
      } else {
        assert r == r';
        SubseqSkip(line, Addresses(r'), StrippedLines(lines[1..]));
      }
    }
  }

  /** Every parsed entry is a fresh record of an accepted line. */
  lemma {:induction false} ParsedLinesShape(lines: seq<string>, sourceName: string, countryTag: string, now: int)
    ensures forall e :: e in ParsedLines(lines, sourceName, countryTag, now) ==>
      AcceptedLine(e.proxy) && e == NewEntry(e.proxy, countryTag, "unknown", sourceName, now)
  {
    if lines != [] {
      ParsedLinesShape(lines[1..], sourceName, countryTag, now);
    }
  }

  /** No accepted line is missing from the parsed addresses. */
  lemma {:induction false} ParsedLinesComplete(lines: seq<string>, sourceName: string, countryTag: string, now: int)
    ensures forall i :: 0 <= i < |lines| && AcceptedLine(Strip(lines[i])) ==>
      Strip(lines[i]) in Addresses(ParsedLines(lines, sourceName, countryTag, now))
  {
    if lines != [] {
      var r := ParsedLines(lines, sourceName, countryTag, now);
      var r' := ParsedLines(lines[1..], sourceName, countryTag, now);
      ParsedLinesComplete(lines[1..], sourceName, countryTag, now);
      var line := Strip(lines[0]);
      if AcceptedLine(line) {
        AddressesCons(NewEntry(line, countryTag, "unknown", sourceName, now), r');
      } else {
        assert r == r';
      }
      forall i | 0 < i < |lines| && AcceptedLine(Strip(lines[i]))
        ensures Strip(lines[i]) in Addresses(r)
      {
        assert lines[1..][i - 1] == lines[i];
      }
    }
  }

  /** The '#' test is redundant: a line of the address pattern's shape starts with a digit. */
  lemma PatternStartsWithDigit(line: string)
    requires MatchesAddressPattern(line)
    ensures line != "" && IsDigit(line[0]) && line[0] != '#'
  {
    var host := Split(line, ':')[0];
    var first := Split(host, '.')[0];
    assert DigitRun(first, 1, 3);
    SplitHead(line, ':');
    SplitHead(host, '.');
    assert first[0] == host[0] == line[0];
  }

  /** The first piece of a split is a prefix of the text. */
  lemma {:induction false} SplitHead(s: string, sep: char)
    ensures Split(s, sep)[0] <= s
  {
    if s != [] {
      SplitHead(s[1..], sep);
    }
  }

  /** Every parsed entry passes the address checks of the shared filter. */
  lemma {:induction false} ParsedWellFormed(lines: seq<string>, sourceName: string, countryTag: string, now: int)
    ensures forall e :: e in ParsedLines(lines, sourceName, countryTag, now) ==> WellFormed(e)
  {
    ParsedLinesExact(lines, sourceName, countryTag, now);
  }

  // ---------------------------------------------------------------------
  // The fetcher object: its country and its geolocation cache
  // ---------------------------------------------------------------------

  /** `country and country.upper()`: no country is the empty string. */
  function NormalizeCountry(country: Option<string>): (r: string)
    ensures country.None? ==> r == ""
    ensures country.Some? ==> r == Upper(country.value)
  {
    match country
    case None => ""
    case Some(c) => Upper(c)
  }

  /** The state every `BaseProxyFetcher` shares. */
  class BaseFetcher {
    /** The upper-cased target country, or "" for none. */
    const country: string
    /** `geo_cache`: addresses already looked up, and their answers. */
    var geoCache: map<string, string>

    /** Every cached answer is what the heuristic gives for that address. */
    ghost predicate Valid()
      reads this
    {
      forall p :: p in geoCache ==> geoCache[p] == DetectCountry(p)
    }

    constructor (country: Option<string>)
      ensures this.country == NormalizeCountry(country)
      ensures geoCache == map[] && Valid()
    {
      this.country := NormalizeCountry(country);
      geoCache := map[];
    }

    /**
     * `_get_proxy_country`: a cached answer is returned as is; otherwise the
     * table is scanned in order and the answer is cached. Either way the
     * answer is the heuristic's and the cache holds it afterwards.
     */
    method GetProxyCountry(proxy: string) returns (c: string)
      requires Valid()
      modifies this`geoCache
      ensures Valid()
      ensures c == DetectCountry(proxy)
      ensures geoCache == old(geoCache)[proxy := c]
    {
      if proxy in geoCache {
        return geoCache[proxy];
      }
      c := MatchTable(CountryPatterns, HostPart(proxy));
      geoCache := geoCache[proxy := c];
    }

    /**
     * `_filter_and_deduplicate`. The dictionaries the loop reaches may have
     * their country overwritten in place; `updated` is the caller's list as
     * it stands afterwards. The outcome is the loop's specification, and the
     * cache has gained exactly the addresses handed to the heuristic.
     */
    method FilterAndDeduplicate(proxies: seq<Entry>, maxProxies: int) returns (kept: seq<Entry>, updated: seq<Entry>)
      requires Valid()
      modifies this`geoCache
      ensures Valid()
      ensures var r := FilterFrom(proxies, country, maxProxies, 0);
        kept == r.kept && updated == r.updated && geoCache.Keys == old(geoCache).Keys + r.probed
    {
      kept := [];
      var done: seq<Entry> := [];
      ghost var probed: set<string> := {};
      var i := 0;
      assert proxies[0..] == proxies;
      while i < |proxies|
        invariant 0 <= i <= |proxies| && Valid()
        invariant FilterSoFar(proxies, country, maxProxies, i, kept, done, probed)
        invariant geoCache.Keys == old(geoCache).Keys + probed
      {
        var e := proxies[i];
        if e.proxy == "" || !MatchesAddressPattern(e.proxy) {
          AdvanceMalformed(proxies, country, maxProxies, i, kept, done, probed);
          done := done + [e];
          i := i + 1;
          continue;
        }
        if country != "" {
          var proxyCountry := Upper(CountryOf(e));
          var targetCountry := Upper(country);
          if proxyCountry != targetCountry {
            if proxyCountry == "UNKNOWN" {
              kept, done, probed := ScreenUnknown(proxies, maxProxies, i, kept, done, probed);
            } else {
              AdvanceOtherCountry(proxies, country, maxProxies, i, kept, done, probed);
              done := done + [e];
            }
            i := i + 1;
            continue;
          }
        }
        ghost var before := kept;
        kept := kept + [e];
        if |kept| >= maxProxies {
          FilterBreak(proxies, country, maxProxies, i, before, done, probed);
          updated := done + [e] + proxies[i + 1..];
          return;
        }
        AdvanceSelected(proxies, country, maxProxies, i, before, done, probed);
        done := done + [e];
        i := i + 1;
      }
      FilterDone(proxies, country, maxProxies, kept, done, probed);
      updated := done;
    }

    /** The heuristic branch of the loop: an unknown country is overwritten with the guess, and kept if that is the target. */
    method ScreenUnknown(proxies: seq<Entry>, maxProxies: int, i: nat, kept: seq<Entry>, done: seq<Entry>, ghost probed: set<string>)
      returns (kept': seq<Entry>, done': seq<Entry>, ghost probed': set<string>)
      requires Valid() && i < |proxies| && FilterSoFar(proxies, country, maxProxies, i, kept, done, probed)
      requires proxies[i].proxy != "" && MatchesAddressPattern(proxies[i].proxy) && country != ""
      requires Upper(CountryOf(proxies[i])) != Upper(country) && Upper(CountryOf(proxies[i])) == "UNKNOWN"
      modifies this`geoCache
      ensures Valid() && FilterSoFar(proxies, country, maxProxies, i + 1, kept', done', probed')
      ensures probed' == probed + {proxies[i].proxy} && geoCache.Keys == old(geoCache).Keys + {proxies[i].proxy}
    {
      var e := proxies[i];
      var detected := GetProxyCountry(e.proxy);
      AdvanceGuessed(proxies, country, maxProxies, i, kept, done, probed, detected);
      probed' := probed + {e.proxy};
      e := e.(country := Some(detected));
      kept' := kept;
      if Upper(detected) == Upper(country) {
        kept' := kept + [e];
      }
      done' := done + [e];
    }
  }
}
