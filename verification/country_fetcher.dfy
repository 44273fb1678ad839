/**
 * `CountryProxyFetcher`: a fetcher bound to one country. It gathers the
 * main sources, falls back to GitHub lists filtered by country when short,
 * takes shortcuts for countries with few proxies, validates the filtered
 * list through a one-hour cache, and returns the fastest validated entries
 * or, failing that, the unvalidated ones. Network results are inputs: each
 * main source's parsed list, each GitHub list's text, and a probe that
 * gives a candidate's measured latency or nothing.
 */
module CountryFetch {
  import opened Wrappers
  import opened PyText
  import opened Seqs
  import opened Records
  import opened BaseFetch

  // ---------------------------------------------------------------------
  // `_build_sources`
  // ---------------------------------------------------------------------

  /** The sources' names: the five main ones, then the three GitHub lists. */
  datatype CountrySourceName =
    | GeoNodeMain | FreeProxyMain | ProxyScrapeMain | OpenProxyMain | GatherProxyMain
    | TheSpeedX | Clarketm | Monosans

  /** Which parser a source's text goes to. */
  datatype CountryParser = GeonodePage | FreeProxyPage | PlainText | OpenProxyPage | GatherProxyPage

  /** A source entry; the URL and headers are left out. */
  datatype CountrySource = CountrySource(name: CountrySourceName, parser: CountryParser)

  const MainSources: seq<CountrySource> := [
    CountrySource(GeoNodeMain, GeonodePage),
    CountrySource(FreeProxyMain, FreeProxyPage),
    CountrySource(ProxyScrapeMain, PlainText),
    CountrySource(OpenProxyMain, OpenProxyPage),
    CountrySource(GatherProxyMain, GatherProxyPage)
  ]

  /** The backup list `_build_sources` would add if fewer than three main sources existed. */
  const BackupSources: seq<CountrySource> := [
    CountrySource(TheSpeedX, PlainText),
    CountrySource(Clarketm, PlainText),
    CountrySource(Monosans, PlainText)
  ]

  /** The position of 'FreeProxy' among the main sources. */
  const FreeProxyIndex: nat := 1

  /**
   * `_build_sources`: the five main sources. The backup list is guarded by
   * a test on the main list's length that is never true, so it is never
   * added.
   */
  method BuildSources() returns (sources: seq<CountrySource>)
    ensures sources == MainSources
    ensures forall s :: s in BackupSources ==> s !in sources
  {
    sources := MainSources;
    if |sources| < 3 {
      sources := sources + BackupSources;
    }
  }

  // ---------------------------------------------------------------------
  // `_validate_proxies` and its cache
  // ---------------------------------------------------------------------

  /** Every cached record sits under its own address, validated, with a speed and a stamp. */
  predicate CacheValid(cache: map<string, Entry>) {
    forall p :: p in cache ==>
      cache[p].proxy == p && cache[p].validated == Some(true) && cache[p].speed.Some? && cache[p].timestamp.Some?
  }

  /** The address has a cached record less than an hour (3600 s) old. */
  predicate CacheHit(cache: map<string, Entry>, e: Entry, now: int) {
    e.proxy in cache && cache[e.proxy].timestamp.Some? && now - cache[e.proxy].timestamp.value < 3600
  }

  /** The record a successful probe makes: the candidate marked validated, with its speed and the time. */
  function ValidatedRecord(e: Entry, speed: real, now: int): Entry {
    e.(validated := Some(true), speed := Some(speed), lastChecked := Some(now), timestamp := Some(now))
  }

  /** The validated list and the cache after the loop. */
  datatype ValidationRun = ValidationRun(validated: seq<Entry>, cache: map<string, Entry>)

  /**
   * The validation loop from a given cache: a fresh cached record is reused
   * without a probe; otherwise the candidate is probed, and a success is
   * recorded in the cache and appended, a failure dropped.
   */
  function ValidateFrom(ps: seq<Entry>, probe: string -> Option<real>, cache: map<string, Entry>, now: int): (r: ValidationRun)
    ensures |r.validated| <= |ps|
    ensures cache.Keys <= r.cache.Keys
    decreases |ps|
  {
    if ps == [] then ValidationRun([], cache)
    else if CacheHit(cache, ps[0], now) then
      var r := ValidateFrom(ps[1..], probe, cache, now);
      ValidationRun([cache[ps[0].proxy]] + r.validated, r.cache)
    else match probe(ps[0].proxy)
      case None => ValidateFrom(ps[1..], probe, cache, now)
      case Some(speed) =>
        var v := ValidatedRecord(ps[0], speed, now);
        var r := ValidateFrom(ps[1..], probe, cache[ps[0].proxy := v], now);
        ValidationRun([v] + r.validated, r.cache)
  }

  /** The addresses whose probe succeeds. */
  function Succeeding(ps: seq<Entry>, probe: string -> Option<real>): set<string> {
    if ps == [] then {}
    else (if probe(ps[0].proxy).Some? then {ps[0].proxy} else {}) + Succeeding(ps[1..], probe)
  }

  /** The cache stays consistent and gains exactly the addresses whose probe succeeds. */
  lemma {:induction false} ValidateCacheFacts(ps: seq<Entry>, probe: string -> Option<real>, cache: map<string, Entry>, now: int)
    requires CacheValid(cache)
    ensures var r := ValidateFrom(ps, probe, cache, now);
      CacheValid(r.cache) && r.cache.Keys == cache.Keys + Succeeding(ps, probe)
    decreases |ps|
  {
    if ps != [] {
      var e := ps[0];
      if CacheHit(cache, e, now) {
        ValidateCacheFacts(ps[1..], probe, cache, now);
      } else if probe(e.proxy).None? {
        ValidateCacheFacts(ps[1..], probe, cache, now);
      } else {
        var v := ValidatedRecord(e, probe(e.proxy).value, now);
        ValidateCacheFacts(ps[1..], probe, cache[e.proxy := v], now);
      }
    }
  }

  /**
   * What validation returns: records marked validated, each with a speed,
   * for addresses of the input in input order.
   */
  lemma {:induction false} ValidateRecordFacts(ps: seq<Entry>, probe: string -> Option<real>, cache: map<string, Entry>, now: int)
    requires CacheValid(cache)
    ensures var r := ValidateFrom(ps, probe, cache, now);
      && (forall e :: e in r.validated ==> e.validated == Some(true) && e.speed.Some?)
      && IsSubseq(Addresses(r.validated), Addresses(ps))
    decreases |ps|
  {
    if ps != [] {
      var r := ValidateFrom(ps, probe, cache, now);
      var e := ps[0];
      assert ps == [e] + ps[1..];
      AddressesCons(e, ps[1..]);
      if CacheHit(cache, e, now) {
        ValidateRecordFacts(ps[1..], probe, cache, now);
        var r' := ValidateFrom(ps[1..], probe, cache, now);
        AddressesCons(cache[e.proxy], r'.validated);
        SubseqCons(e.proxy, Addresses(r'.validated), Addresses(ps[1..]));
      } else if probe(e.proxy).None? {
        ValidateRecordFacts(ps[1..], probe, cache, now);
        var r' := ValidateFrom(ps[1..], probe, cache, now);
        assert r == r';
        SubseqSkip(e.proxy, Addresses(r'.validated), Addresses(ps[1..]));
      } else {
        var v := ValidatedRecord(e, probe(e.proxy).value, now);
        ValidateRecordFacts(ps[1..], probe, cache[e.proxy := v], now);
        var r' := ValidateFrom(ps[1..], probe, cache[e.proxy := v], now);
        AddressesCons(v, r'.validated);
        SubseqCons(e.proxy, Addresses(r'.validated), Addresses(ps[1..]));
      }
    }
  }

  /** When every address has a fresh cached record, the cache answers for all of them: no probe counts, nothing changes. */
  lemma {:induction false} AllCachedReused(ps: seq<Entry>, probe: string -> Option<real>, cache: map<string, Entry>, now: int)
    requires forall i :: 0 <= i < |ps| ==> CacheHit(cache, ps[i], now)
    ensures var r := ValidateFrom(ps, probe, cache, now);
      r.cache == cache && |r.validated| == |ps| && forall i :: 0 <= i < |ps| ==> ps[i].proxy in cache && r.validated[i] == cache[ps[i].proxy]
    decreases |ps|
  {
    if ps != [] {
      assert forall i :: 0 <= i < |ps[1..]| ==> ps[1..][i] == ps[i + 1];
      AllCachedReused(ps[1..], probe, cache, now);
      var r' := ValidateFrom(ps[1..], probe, cache, now);
      forall i | 0 < i < |ps| ensures ValidateFrom(ps, probe, cache, now).validated[i] == cache[ps[i].proxy] {
        assert ps[1..][i - 1] == ps[i];
      }
    }
  }

  /** Candidates without a fresh cached record whose probe fails are dropped, and the cache is untouched. */
  lemma {:induction false} AllProbesFailDropped(ps: seq<Entry>, probe: string -> Option<real>, cache: map<string, Entry>, now: int)
    requires forall e :: e in ps ==> !CacheHit(cache, e, now) && probe(e.proxy).None?
    ensures ValidateFrom(ps, probe, cache, now) == ValidationRun([], cache)
    decreases |ps|
  {
    if ps != [] {
      assert ps[0] in ps;
      AllProbesFailDropped(ps[1..], probe, cache, now);
    }
  }

  /** One turn of the validation loop. */
  lemma ValidateStep(ps: seq<Entry>, i: nat, probe: string -> Option<real>, cache: map<string, Entry>, now: int)
    requires i < |ps|
    ensures ValidateFrom(ps[i..], probe, cache, now)
         == if CacheHit(cache, ps[i], now) then
              var r := ValidateFrom(ps[i + 1..], probe, cache, now);
              ValidationRun([cache[ps[i].proxy]] + r.validated, r.cache)
            else match probe(ps[i].proxy)
              case None => ValidateFrom(ps[i + 1..], probe, cache, now)
              case Some(speed) =>
                var v := ValidatedRecord(ps[i], speed, now);
                var r := ValidateFrom(ps[i + 1..], probe, cache[ps[i].proxy := v], now);
                ValidationRun([v] + r.validated, r.cache)
  {
    assert ps[i..][0] == ps[i] && ps[i..][1..] == ps[i + 1..];
  }

  /**
   * The validation loop's invariant: what is validated so far, followed by
   * the run over the rest of the list from the current cache, is the whole run.
   */
  ghost predicate ValidateSoFar(ps: seq<Entry>, probe: string -> Option<real>, cache0: map<string, Entry>, now: int,
                                i: nat, validated: seq<Entry>, cache: map<string, Entry>)
  {
    i <= |ps| &&
    var r := ValidateFrom(ps[i..], probe, cache, now);
    ValidateFrom(ps, probe, cache0, now) == ValidationRun(validated + r.validated, r.cache)
  }

  /** A recent cached record is appended and the cache is kept. */
  lemma ValidateHit(ps: seq<Entry>, probe: string -> Option<real>, cache0: map<string, Entry>, now: int,
                    i: nat, validated: seq<Entry>, cache: map<string, Entry>)
    requires i < |ps| && ValidateSoFar(ps, probe, cache0, now, i, validated, cache)
    requires CacheHit(cache, ps[i], now)
    ensures ValidateSoFar(ps, probe, cache0, now, i + 1, validated + [cache[ps[i].proxy]], cache)
  {
    ValidateStep(ps, i, probe, cache, now);
    var r := ValidateFrom(ps[i + 1..], probe, cache, now);
    assert validated + ([cache[ps[i].proxy]] + r.validated) == (validated + [cache[ps[i].proxy]]) + r.validated;
  }

  /** A failed probe drops the candidate and keeps the cache. */
  lemma ValidateDropped(ps: seq<Entry>, probe: string -> Option<real>, cache0: map<string, Entry>, now: int,
                        i: nat, validated: seq<Entry>, cache: map<string, Entry>)
    requires i < |ps| && ValidateSoFar(ps, probe, cache0, now, i, validated, cache)
    requires !CacheHit(cache, ps[i], now) && probe(ps[i].proxy).None?
    ensures ValidateSoFar(ps, probe, cache0, now, i + 1, validated, cache)
  {
    ValidateStep(ps, i, probe, cache, now);
  }

  /** A successful probe records the candidate in the cache and appends it. */
  lemma ValidateProbed(ps: seq<Entry>, probe: string -> Option<real>, cache0: map<string, Entry>, now: int,
                       i: nat, validated: seq<Entry>, cache: map<string, Entry>, speed: real)
    requires i < |ps| && ValidateSoFar(ps, probe, cache0, now, i, validated, cache)
    requires !CacheHit(cache, ps[i], now) && probe(ps[i].proxy) == Some(speed)
    ensures var v := ValidatedRecord(ps[i], speed, now);
      ValidateSoFar(ps, probe, cache0, now, i + 1, validated + [v], cache[ps[i].proxy := v])
  {
    ValidateStep(ps, i, probe, cache, now);
    var v := ValidatedRecord(ps[i], speed, now);
    var r := ValidateFrom(ps[i + 1..], probe, cache[ps[i].proxy := v], now);
    assert validated + ([v] + r.validated) == (validated + [v]) + r.validated;
  }

  /** At the end of the list the run is complete. */
  lemma ValidateDone(ps: seq<Entry>, probe: string -> Option<real>, cache0: map<string, Entry>, now: int,
                     validated: seq<Entry>, cache: map<string, Entry>)
    requires ValidateSoFar(ps, probe, cache0, now, |ps|, validated, cache)
    ensures ValidateFrom(ps, probe, cache0, now) == ValidationRun(validated, cache)
  {
    assert ps[|ps|..] == [];
    assert validated + [] == validated;
  }

  // ---------------------------------------------------------------------
  // `fetch_proxies`
  // ---------------------------------------------------------------------

  /** Countries the fetcher treats as short of proxies. */
  const LimitedCountries: seq<string> := ["SA", "IR", "KP", "CU", "SY", "VE"]

  /** The speed given to entries returned without validation. */
  const UnvalidatedSpeed: real := 999.99

  /** The names the GitHub lists' entries carry as their source. */
  const GithubNames: seq<string> := ["TheSpeedX", "Clarketm", "Monosans"]

  /** `p.get('country', '')`. */
  function CountryOrEmpty(e: Entry): string {
    e.country.GetOr("")
  }

  /** The lists the main sources produced, concatenated in source order (a failed or blank source gives none). */
  function Gathered(fetched: seq<Option<seq<Entry>>>): seq<Entry> {
    if fetched == [] then []
    else
      var last := fetched[|fetched| - 1];
      Gathered(fetched[..|fetched| - 1]) + (if last.Some? then last.value else [])
  }

  /** A GitHub entry whose country is exactly 'unknown' (or absent) gets the heuristic's guess. */
  function Guessed(e: Entry): Entry {
    if CountryOf(e) == "unknown" then e.(country := Some(DetectCountry(e.proxy))) else e
  }

  /** The GitHub entries kept: those whose country, once guessed, upper-cases to the target. */
  function FallbackKeep(ps: seq<Entry>, country: string): seq<Entry> {
    if ps == [] then []
    else (if Upper(CountryOrEmpty(Guessed(ps[0]))) == country then [Guessed(ps[0])] else [])
         + FallbackKeep(ps[1..], country)
  }

  /** Appending one entry adds only what that entry contributes. */
  lemma {:induction false} FallbackKeepSnoc(ps: seq<Entry>, e: Entry, country: string)
    ensures FallbackKeep(ps + [e], country)
         == FallbackKeep(ps, country) + if Upper(CountryOrEmpty(Guessed(e))) == country then [Guessed(e)] else []
  {
    if ps != [] {
      assert (ps + [e])[1..] == ps[1..] + [e];
      FallbackKeepSnoc(ps[1..], e, country);
      var h := if Upper(CountryOrEmpty(Guessed(ps[0]))) == country then [Guessed(ps[0])] else [];
      var t := if Upper(CountryOrEmpty(Guessed(e))) == country then [Guessed(e)] else [];
      assert h + (FallbackKeep(ps[1..], country) + t) == (h + FallbackKeep(ps[1..], country)) + t;
    } else {
      assert [e][1..] == [];
    }
  }

  /** One more entry of the fallback filter: what it keeps and what it looks up. */
  lemma KeepStep(ps: seq<Entry>, i: nat, country: string, keys0: set<string>)
    requires i < |ps|
    ensures FallbackKeep(ps[..i + 1], country)
         == FallbackKeep(ps[..i], country) + if Upper(CountryOrEmpty(Guessed(ps[i]))) == country then [Guessed(ps[i])] else []
    ensures keys0 + Unknowns(ps[..i + 1])
         == (keys0 + Unknowns(ps[..i])) + if CountryOf(ps[i]) == "unknown" then {ps[i].proxy} else {}
  {
    assert ps[..i + 1] == ps[..i] + [ps[i]];
    FallbackKeepSnoc(ps[..i], ps[i], country);
    UnknownsSnoc(ps[..i], ps[i]);
  }

  /** What one GitHub list contributes: nothing when it failed or is blank, else its parsed, kept entries. */
  function ListFound(text: Option<string>, name: string, country: string, now: int): seq<Entry> {
    if text.None? || IsBlank(text.value) then []
    else FallbackKeep(ParsedLines(SplitLines(text.value), name, country, now), country)
  }

  /** What the GitHub fallback contributes, list by list. */
  function GithubFound(texts: seq<Option<string>>, country: string, now: int): seq<Entry>
    requires |texts| <= |GithubNames|
  {
    if texts == [] then []
    else
      var k := |texts| - 1;
      GithubFound(texts[..k], country, now) + ListFound(texts[k], GithubNames[k], country, now)
  }

  /** The fallback over one more list adds that list's contribution at the end. */
  lemma GithubFoundStep(texts: seq<Option<string>>, i: nat, country: string, now: int)
    requires i < |texts| <= |GithubNames|
    ensures GithubFound(texts[..i + 1], country, now) == GithubFound(texts[..i], country, now) + ListFound(texts[i], GithubNames[i], country, now)
  {
    assert texts[..i + 1][..i] == texts[..i];
  }

  /** The addresses of the entries whose country is exactly 'unknown' (or absent): the ones `Guessed` looks up. */
  function Unknowns(ps: seq<Entry>): set<string> {
    if ps == [] then {}
    else
      var e := ps[|ps| - 1];
      Unknowns(ps[..|ps| - 1]) + if CountryOf(e) == "unknown" then {e.proxy} else {}
  }

  /** One more entry at the end adds its address exactly when its country is unknown. */
  lemma UnknownsSnoc(ps: seq<Entry>, e: Entry)
    ensures Unknowns(ps + [e]) == Unknowns(ps) + if CountryOf(e) == "unknown" then {e.proxy} else {}
  {
    assert (ps + [e])[..|ps|] == ps;
  }

  /** No entry of unknown country, nothing looked up. */
  lemma {:induction false} UnknownsNone(ps: seq<Entry>)
    requires forall i :: 0 <= i < |ps| ==> CountryOf(ps[i]) != "unknown"
    ensures Unknowns(ps) == {}
  {
    if ps != [] {
      UnknownsNone(ps[..|ps| - 1]);
    }
  }

  /** The addresses one GitHub list looks up: none when it failed or is blank. */
  function ListLookups(text: Option<string>, name: string, country: string, now: int): set<string> {
    if text.None? || IsBlank(text.value) then {}
    else Unknowns(ParsedLines(SplitLines(text.value), name, country, now))
  }

  /** The addresses the GitHub fallback looks up, list by list. */
  function GithubLookups(texts: seq<Option<string>>, country: string, now: int): set<string>
    requires |texts| <= |GithubNames|
  {
    if texts == [] then {}
    else
      var k := |texts| - 1;
      GithubLookups(texts[..k], country, now) + ListLookups(texts[k], GithubNames[k], country, now)
  }

  /** The fallback over one more list adds that list's lookups. */
  lemma GithubLookupsStep(texts: seq<Option<string>>, i: nat, country: string, now: int)
    requires i < |texts| <= |GithubNames|
    ensures GithubLookups(texts[..i + 1], country, now)
         == GithubLookups(texts[..i], country, now) + ListLookups(texts[i], GithubNames[i], country, now)
  {
    assert texts[..i + 1][..i] == texts[..i];
  }

  /**
   * The parser tags every entry with the fetcher's country, which is
   * upper-cased and so never the lower-case 'unknown': the fallback never
   * consults the geolocation cache.
   */
  lemma {:induction false} FallbackLooksUpNothing(texts: seq<Option<string>>, code: string, now: int)
    requires |texts| <= |GithubNames|
    ensures GithubLookups(texts, Upper(code), now) == {}
  {
    if texts != [] {
      var k := |texts| - 1;
      FallbackLooksUpNothing(texts[..k], code, now);
      UpperNotUnknown(code);
      var text := texts[k];
      if text.Some? && !IsBlank(text.value) {
        var ps := ParsedLines(SplitLines(text.value), GithubNames[k], Upper(code), now);
        ParsedLinesExact(SplitLines(text.value), GithubNames[k], Upper(code), now);
        assert forall i :: 0 <= i < |ps| ==> CountryOf(ps[i]) == Upper(code) by {
          forall i | 0 <= i < |ps| ensures CountryOf(ps[i]) == Upper(code) {
            assert ps[i] in ps;
          }
        }
        UnknownsNone(ps);
      }
    }
  }

  /** An upper-cased text is never 'unknown'. */
  lemma UpperNotUnknown(s: string)
    ensures Upper(s) != "unknown"
  {
    UpperAt(s);
    if |s| == 7 {
      assert Upper(s)[0] == UpperChar(s[0]) != 'u';
    }
  }

  /** Everything gathered: the main sources, then the GitHub fallback when fewer than `maxProxies` were found. */
  function AllGathered(main: seq<Option<seq<Entry>>>, github: seq<Option<string>>, country: string,
                       maxProxies: int, now: int): seq<Entry>
    requires |github| <= |GithubNames|
  {
    var g := Gathered(main);
    if |g| < maxProxies then g + GithubFound(github, country, now) else g
  }

  /** The addresses the gathering phase looks up: the fallback's, when it runs. */
  function GatherLookups(main: seq<Option<seq<Entry>>>, github: seq<Option<string>>, country: string,
                         maxProxies: int, now: int): set<string>
    requires |github| <= |GithubNames|
  {
    if |Gathered(main)| < maxProxies then GithubLookups(github, country, now) else {}
  }

  /** The FreeProxy entries as returned by the shortcut: slow, unvalidated, stamped now. */
  function MarkFree(ps: seq<Entry>, now: int): (r: seq<Entry>)
    ensures |r| == |ps|
    ensures forall i :: 0 <= i < |ps| ==>
      r[i] == ps[i].(speed := Some(UnvalidatedSpeed), validated := Some(false), lastChecked := Some(now))
  {
    seq(|ps|, i requires 0 <= i < |ps| =>
      ps[i].(speed := Some(UnvalidatedSpeed), validated := Some(false), lastChecked := Some(now)))
  }

  /** The filtered entries as returned when none validates: a speed kept if present, else slow; unvalidated; stamped now. */
  function MarkUnvalidated(ps: seq<Entry>, now: int): (r: seq<Entry>)
    ensures |r| == |ps|
    ensures forall i :: 0 <= i < |ps| ==>
      r[i] == ps[i].(speed := Some(ps[i].speed.GetOr(UnvalidatedSpeed)), validated := Some(false), lastChecked := Some(now))
  {
    seq(|ps|, i requires 0 <= i < |ps| =>
      ps[i].(speed := Some(ps[i].speed.GetOr(UnvalidatedSpeed)), validated := Some(false), lastChecked := Some(now)))
  }

  /** The entries whose country upper-cases to the target, in order. */
  function CountryMatches(ps: seq<Entry>, country: string): seq<Entry> {
    if ps == [] then []
    else (if Upper(CountryOrEmpty(ps[0])) == country then [ps[0]] else []) + CountryMatches(ps[1..], country)
  }

  /**
   * The list handed to validation: the filter's output, or, for a limited
   * country with fewer than two kept entries, every gathered entry of the
   * country when there is one.
   */
  function ToValidate(kept: seq<Entry>, gathered: seq<Entry>, country: string): seq<Entry> {
    if |kept| < 5 && country in LimitedCountries && |kept| < 2 && CountryMatches(gathered, country) != [] then
      CountryMatches(gathered, country)
    else kept
  }

  /** `lambda x: x.get('speed', float('inf'))`. */
  function SpeedKey(e: Entry): SortKey {
    match e.speed
    case Some(s) => Finite(s)
    case None => Infinite
  }

  /** The outcome of a fetch, and the validation cache afterwards. */
  datatype CountryRun = CountryRun(result: Result<seq<Entry>, Error>, cache: map<string, Entry>)

  /** What `fetch_proxies` returns or raises, given the sources' results, the probe and the cache. */
  function CountryOutcome(country: string, main: seq<Option<seq<Entry>>>, github: seq<Option<string>>,
                          probe: string -> Option<real>, cache: map<string, Entry>, maxProxies: int, now: int): (r: CountryRun)
    requires |main| == |MainSources| && |github| == |GithubNames|
    ensures r.result.Failure? ==> r.result.error == ProxyFetchError && r.cache == cache
    ensures cache.Keys <= r.cache.Keys
  {
    GatheredOutcome(country, AllGathered(main, github, country, maxProxies, now), main[FreeProxyIndex],
                    probe, cache, maxProxies, now)
  }

  /**
   * A fetch once everything is gathered: nothing at all raises; for a limited
   * country the free-proxy list, when it answered with entries, is returned as
   * is; otherwise the shared filter's candidates are validated, and with none
   * working they are all returned marked unvalidated, else the working ones
   * fastest first.
   */
  function GatheredOutcome(country: string, all: seq<Entry>, free: Option<seq<Entry>>,
                           probe: string -> Option<real>, cache: map<string, Entry>, maxProxies: int, now: int): (r: CountryRun)
    ensures r.result.Failure? ==> r.result.error == ProxyFetchError && r.cache == cache
    ensures cache.Keys <= r.cache.Keys
  {
    if all == [] then CountryRun(Failure(ProxyFetchError), cache)
    else if country in LimitedCountries && free.Some? && free.value != [] then
      CountryRun(Success(Prefix(MarkFree(free.value, now), maxProxies)), cache)
    else
      var run := FilterFrom(all, country, maxProxies, 0);
      var filtered := ToValidate(run.kept, run.updated, country);
      var v := ValidateFrom(filtered, probe, cache, now);
      if v.validated == [] && filtered != [] then
        CountryRun(Success(Prefix(MarkUnvalidated(filtered, now), maxProxies)), v.cache)
      else
        CountryRun(Success(Prefix(SortBy(v.validated, SpeedKey), maxProxies)), v.cache)
  }

  /**
   * The addresses a fetch looks up in the geolocation cache: the fallback's,
   * then, past the raise and the shortcut, those the shared filter probes.
   */
  function CountryLookups(country: string, main: seq<Option<seq<Entry>>>, github: seq<Option<string>>,
                          maxProxies: int, now: int): set<string>
    requires |main| == |MainSources| && |github| == |GithubNames|
  {
    GatherLookups(main, github, country, maxProxies, now)
      + GatheredLookups(country, AllGathered(main, github, country, maxProxies, now), main[FreeProxyIndex], maxProxies)
  }

  /** The addresses the shared filter probes once everything is gathered: none past a raise or the shortcut. */
  function GatheredLookups(country: string, all: seq<Entry>, free: Option<seq<Entry>>, maxProxies: int): set<string> {
    if all == [] || (country in LimitedCountries && free.Some? && free.value != []) then {}
    else FilterFrom(all, country, maxProxies, 0).probed
  }

  // Properties of a fetch.

  /** A fetch raises `ProxyFetchError` exactly when nothing was gathered, fallback included; the cache is then untouched. */
  lemma CountryRaisesIff(country: string, main: seq<Option<seq<Entry>>>, github: seq<Option<string>>,
                         probe: string -> Option<real>, cache: map<string, Entry>, maxProxies: int, now: int)
    requires |main| == |MainSources| && |github| == |GithubNames|
    ensures var run := CountryOutcome(country, main, github, probe, cache, maxProxies, now);
      && (run.result.Failure? <==> AllGathered(main, github, country, maxProxies, now) == [])
      && (run.result.Failure? ==> run.result.error == ProxyFetchError && run.cache == cache)
  {
  }

  /** The GitHub fallback is consulted only when the main sources gave fewer than `maxProxies` entries. */
  lemma FallbackOnlyWhenShort(main: seq<Option<seq<Entry>>>, github: seq<Option<string>>, country: string,
                              maxProxies: int, now: int)
    requires |github| <= |GithubNames|
    requires |Gathered(main)| >= maxProxies
    ensures AllGathered(main, github, country, maxProxies, now) == Gathered(main)
  {
  }

  /** Every entry the fallback keeps carries the target country once upper-cased. */
  lemma {:induction false} FallbackKeepsTarget(ps: seq<Entry>, country: string)
    ensures forall e :: e in FallbackKeep(ps, country) ==> Upper(CountryOrEmpty(e)) == country
  {
    if ps != [] {
      FallbackKeepsTarget(ps[1..], country);
    }
  }

  /**
   * The fallback keeps every entry of its own text parser: those entries
   * are tagged with the fetcher's country, which is upper-case and so never
   * the exact 'unknown' that triggers a guess.
   */
  lemma {:induction false} FallbackKeepsParsed(lines: seq<string>, name: string, country: string, now: int)
    requires Upper(country) == country
    ensures FallbackKeep(ParsedLines(lines, name, country, now), country) == ParsedLines(lines, name, country, now)
  {
    assert country != "unknown";
    if lines != [] {
      FallbackKeepsParsed(lines[1..], name, country, now);
      var ps := ParsedLines(lines, name, country, now);
      var rest := ParsedLines(lines[1..], name, country, now);
      if AcceptedLine(Strip(lines[0])) {
        assert ps == [NewEntry(Strip(lines[0]), country, "unknown", name, now)] + rest;
        assert ps[1..] == rest;
      } else {
        assert ps == rest;
      }
    }
  }

  /**
   * For a limited country whose FreeProxy source produced entries, the fetch
   * returns the first `maxProxies` of them unvalidated, each with speed
   * 999.99, and validates nothing.
   */
  lemma LimitedShortcut(country: string, main: seq<Option<seq<Entry>>>, github: seq<Option<string>>,
                        probe: string -> Option<real>, cache: map<string, Entry>, maxProxies: int, now: int)
    requires |main| == |MainSources| && |github| == |GithubNames|
    requires country in LimitedCountries && main[FreeProxyIndex].Some? && main[FreeProxyIndex].value != []
    ensures var run := CountryOutcome(country, main, github, probe, cache, maxProxies, now);
      && run.cache == cache
      && run.result == Success(Prefix(MarkFree(main[FreeProxyIndex].value, now), maxProxies))
      && (forall e :: e in run.result.value ==> e.speed == Some(UnvalidatedSpeed) && e.validated == Some(false))
  {
    var free := main[FreeProxyIndex].value;
    assert Gathered(main) == Gathered(main[..|main| - 1]) + (if main[4].Some? then main[4].value else []);
    GatheredHas(main, FreeProxyIndex);
    var r := Prefix(MarkFree(free, now), maxProxies);
    forall e | e in r ensures e.speed == Some(UnvalidatedSpeed) && e.validated == Some(false) {
      assert e in MarkFree(free, now);
    }
  }

  /** A source's entries are part of what was gathered: a non-empty one makes the whole non-empty. */
  lemma {:induction false} GatheredHas(main: seq<Option<seq<Entry>>>, k: nat)
    requires k < |main| && main[k].Some? && main[k].value != []
    ensures Gathered(main) != []
  {
    var n := |main| - 1;
    if k < n {
      assert main[..n][k] == main[k];
      GatheredHas(main[..n], k);
    }
  }

  /** Every entry is unvalidated and has a speed. */
  predicate AllUnvalidated(r: seq<Entry>) {
    forall e :: e in r ==> e.validated == Some(false) && e.speed.Some?
  }

  /** The entries are validated records with speeds, in non-decreasing speed. */
  predicate FastestValidated(r: seq<Entry>) {
    SortedBy(r, SpeedKey) && forall e :: e in r ==> e.validated == Some(true) && e.speed.Some?
  }

  /** A prefix holds only elements of the whole. */
  lemma PrefixMember<T>(s: seq<T>, k: int, x: T)
    requires x in Prefix(s, k)
    ensures x in s
  {
    var r := Prefix(s, k);
    var i :| 0 <= i < |r| && r[i] == x;
    assert s[i] == x;
  }

  lemma MarkFreeShape(free: seq<Entry>, maxProxies: int, now: int)
    ensures AllUnvalidated(Prefix(MarkFree(free, now), maxProxies))
  {
    forall e | e in Prefix(MarkFree(free, now), maxProxies) ensures e.validated == Some(false) && e.speed.Some? {
      PrefixMember(MarkFree(free, now), maxProxies, e);
    }
  }

  lemma MarkUnvalidatedShape(filtered: seq<Entry>, maxProxies: int, now: int)
    ensures AllUnvalidated(Prefix(MarkUnvalidated(filtered, now), maxProxies))
  {
    forall e | e in Prefix(MarkUnvalidated(filtered, now), maxProxies) ensures e.validated == Some(false) && e.speed.Some? {
      PrefixMember(MarkUnvalidated(filtered, now), maxProxies, e);
    }
  }

  lemma SortedShape(validated: seq<Entry>, maxProxies: int)
    requires forall e :: e in validated ==> e.validated == Some(true) && e.speed.Some?
    ensures FastestValidated(Prefix(SortBy(validated, SpeedKey), maxProxies))
  {
    var sorted := SortBy(validated, SpeedKey);
    SortBySorted(validated, SpeedKey);
    SortByPerm(validated, SpeedKey);
    PrefixKeeps(sorted, maxProxies, SpeedKey);
    forall e | e in Prefix(sorted, maxProxies) ensures e.validated == Some(true) && e.speed.Some? {
      PrefixMember(sorted, maxProxies, e);
      assert e in multiset(sorted);
    }
  }

  /**
   * Every successful fetch returns at most `maxProxies` entries (for a
   * non-negative bound), and either all of them are unvalidated with a
   * speed, or all are validated records in non-decreasing speed.
   */
  lemma CountryOutcomeShape(country: string, main: seq<Option<seq<Entry>>>, github: seq<Option<string>>,
                            probe: string -> Option<real>, cache: map<string, Entry>, maxProxies: int, now: int)
    requires |main| == |MainSources| && |github| == |GithubNames|
    requires CacheValid(cache)
    ensures var run := CountryOutcome(country, main, github, probe, cache, maxProxies, now);
      run.result.Success? ==>
        && (maxProxies >= 0 ==> |run.result.value| <= maxProxies)
        && (AllUnvalidated(run.result.value) || FastestValidated(run.result.value))
  {
    var all := AllGathered(main, github, country, maxProxies, now);
    if all == [] {
    } else if country in LimitedCountries && main[FreeProxyIndex].Some? && main[FreeProxyIndex].value != [] {
      MarkFreeShape(main[FreeProxyIndex].value, maxProxies, now);
    } else {
      var run := FilterFrom(all, country, maxProxies, 0);
      var filtered := ToValidate(run.kept, run.updated, country);
      var v := ValidateFrom(filtered, probe, cache, now);
      ValidateRecordFacts(filtered, probe, cache, now);
      if v.validated == [] && filtered != [] {
        MarkUnvalidatedShape(filtered, maxProxies, now);
      } else {
        SortedShape(v.validated, maxProxies);
      }
    }
  }

  /**
   * For a limited country with fewer than two entries after the filter,
   * validation is handed every gathered entry of the country instead, when
   * there is one.
   */
  lemma LimitedWidening(kept: seq<Entry>, gathered: seq<Entry>, country: string)
    requires country in LimitedCountries && |kept| < 2 && CountryMatches(gathered, country) != []
    ensures ToValidate(kept, gathered, country) == CountryMatches(gathered, country)
    ensures forall e :: e in ToValidate(kept, gathered, country) ==> Upper(CountryOrEmpty(e)) == country
  {
    CountryMatchesExact(gathered, country);
  }

  /** The matching entries are an order-preserving subsequence, all of the country, none missing. */
  lemma {:induction false} CountryMatchesExact(ps: seq<Entry>, country: string)
    ensures IsSubseq(CountryMatches(ps, country), ps)
    ensures forall e :: e in CountryMatches(ps, country) ==> Upper(CountryOrEmpty(e)) == country
    ensures forall i :: 0 <= i < |ps| && Upper(CountryOrEmpty(ps[i])) == country ==> ps[i] in CountryMatches(ps, country)
  {
    if ps != [] {
      CountryMatchesExact(ps[1..], country);
      var r := CountryMatches(ps, country);
      var r' := CountryMatches(ps[1..], country);
      if Upper(CountryOrEmpty(ps[0])) == country {
        assert r == [ps[0]] + r' && r[1..] == r';
      } else {
        assert r == r';
        if r != [] {
          assert IsSubseq(r, ps[1..]);
        }
      }
      forall i | 0 < i < |ps| && Upper(CountryOrEmpty(ps[i])) == country ensures ps[i] in r {
        assert ps[1..][i - 1] == ps[i];
      }
    }
  }

  // ---------------------------------------------------------------------
  // The fetcher object
  // ---------------------------------------------------------------------

  class CountryFetcher {
    /** The shared state: the upper-cased country and the geolocation cache. */
    const base: BaseFetcher
    /** `self.sources`, built once by the constructor. */
    const sources: seq<CountrySource>
    /** `proxy_cache`: validated records by address. */
    var proxyCache: map<string, Entry>

    ghost predicate Valid()
      reads this, base
    {
      base.Valid() && base.country != "" && CacheValid(proxyCache)
    }

    /** The constructor once its check has passed (see `NewCountryFetcher`). */
    constructor (countryCode: string)
      requires countryCode != ""
      ensures fresh(base) && Valid() && base.country == Upper(countryCode) && base.geoCache == map[]
      ensures sources == MainSources && proxyCache == map[]
    {
      UpperAt(countryCode);
      var b := new BaseFetcher(Some(countryCode));
      var s := BuildSources();
      base := b;
      sources := s;
      proxyCache := map[];
    }

    /** `_parse_text_list`: the shared line parser, each entry tagged with the fetcher's country. */
    method ParseTextList(text: string, sourceName: string, now: int) returns (result: seq<Entry>)
      ensures result == ParsedLines(SplitLines(text), sourceName, base.country, now)
    {
      result := BaseFetch.ParseTextList(text, sourceName, base.country, now);
    }

    /**
     * `_validate_proxies`: the validation loop, reading and extending the
     * cache; `now` is the clock reading for the whole call.
     */
    method ValidateProxies(proxies: seq<Entry>, probe: string -> Option<real>, now: int) returns (validated: seq<Entry>)
      requires Valid()
      modifies this`proxyCache
      ensures Valid()
      ensures var r := ValidateFrom(proxies, probe, old(proxyCache), now);
        validated == r.validated && proxyCache == r.cache
    {
      validated := [];
      var i := 0;
      assert proxies[0..] == proxies;
      while i < |proxies|
        invariant ValidateSoFar(proxies, probe, old(proxyCache), now, i, validated, proxyCache)
        invariant CacheValid(proxyCache)
      {
        var proxy := proxies[i];
        if proxy.proxy in proxyCache {
          var cached := proxyCache[proxy.proxy];
          if cached.timestamp.Some? && now - cached.timestamp.value < 3600 {
            ValidateHit(proxies, probe, old(proxyCache), now, i, validated, proxyCache);
            validated := validated + [cached];
            i := i + 1;
            continue;
          }
        }
        match probe(proxy.proxy)
        case None =>
          ValidateDropped(proxies, probe, old(proxyCache), now, i, validated, proxyCache);
          i := i + 1;
          continue;
        case Some(speed) =>
          var validatedProxy := ValidatedRecord(proxy, speed, now);
          ValidateProbed(proxies, probe, old(proxyCache), now, i, validated, proxyCache, speed);
          proxyCache := proxyCache[proxy.proxy := validatedProxy];
          validated := validated + [validatedProxy];
          i := i + 1;
      }
      ValidateDone(proxies, probe, old(proxyCache), now, validated, proxyCache);
    }

    /** An entry whose country is unknown gets the one its address suggests, through the cache. */
    method GuessCountry(proxy: Entry) returns (guessed: Entry)
      requires base.Valid()
      modifies base`geoCache
      ensures base.Valid()
      ensures guessed == Guessed(proxy)
      ensures base.geoCache.Keys == old(base.geoCache.Keys) + if CountryOf(proxy) == "unknown" then {proxy.proxy} else {}
    {
      guessed := proxy;
      if CountryOf(proxy) == "unknown" {
        var detected := base.GetProxyCountry(proxy.proxy);
        guessed := proxy.(country := Some(detected));
      }
    }

    /** The GitHub entries of one list: unknown countries guessed (through the cache), the target's kept. */
    method KeepCountry(proxies: seq<Entry>) returns (countryProxies: seq<Entry>)
      requires base.Valid()
      modifies base`geoCache
      ensures base.Valid()
      ensures countryProxies == FallbackKeep(proxies, base.country)
      ensures base.geoCache.Keys == old(base.geoCache.Keys) + Unknowns(proxies)
    {
      countryProxies := [];
      var i := 0;
      while i < |proxies|
        invariant 0 <= i <= |proxies| && base.Valid()
        invariant countryProxies == FallbackKeep(proxies[..i], base.country)
        invariant base.geoCache.Keys == old(base.geoCache.Keys) + Unknowns(proxies[..i])
      {
        countryProxies := KeepTurn(proxies, i, countryProxies, old(base.geoCache.Keys));
        i := i + 1;
      }
      assert proxies[..|proxies|] == proxies;
    }

    /** One turn of the fallback filter: the entry's country is guessed if unknown, and the entry kept if it is the target's. */
    method KeepTurn(proxies: seq<Entry>, i: nat, countryProxies: seq<Entry>, ghost keys0: set<string>)
      returns (countryProxies': seq<Entry>)
      requires base.Valid() && i < |proxies|
      requires countryProxies == FallbackKeep(proxies[..i], base.country)
      requires base.geoCache.Keys == keys0 + Unknowns(proxies[..i])
      modifies base`geoCache
      ensures base.Valid()
      ensures countryProxies' == FallbackKeep(proxies[..i + 1], base.country)
      ensures base.geoCache.Keys == keys0 + Unknowns(proxies[..i + 1])
    {
      KeepStep(proxies, i, base.country, keys0);
      var proxy := GuessCountry(proxies[i]);
      countryProxies' := countryProxies;
      if Upper(CountryOrEmpty(proxy)) == base.country {
        countryProxies' := countryProxies + [proxy];
      }
    }

    /** The GitHub fallback: each list that answered with a non-blank text is parsed and filtered by country. */
    method GithubFallback(texts: seq<Option<string>>, now: int) returns (found: seq<Entry>)
      requires base.Valid() && |texts| == |GithubNames|
      modifies base`geoCache
      ensures base.Valid()
      ensures found == GithubFound(texts, base.country, now)
      ensures base.geoCache.Keys == old(base.geoCache.Keys) + GithubLookups(texts, base.country, now)
    {
      found := [];
      var i := 0;
      while i < |texts|
        invariant 0 <= i <= |texts| && base.Valid()
        invariant found == GithubFound(texts[..i], base.country, now)
        invariant base.geoCache.Keys == old(base.geoCache.Keys) + GithubLookups(texts[..i], base.country, now)
      {
        found := FallbackTurn(texts, i, now, found, old(base.geoCache.Keys));
        i := i + 1;
      }
      assert texts[..|texts|] == texts;
    }

    /** One turn of the fallback loop: the next list's contribution and lookups are added. */
    method FallbackTurn(texts: seq<Option<string>>, i: nat, now: int, found: seq<Entry>, ghost keys0: set<string>)
      returns (found': seq<Entry>)
      requires base.Valid() && i < |texts| == |GithubNames|
      requires found == GithubFound(texts[..i], base.country, now)
      requires base.geoCache.Keys == keys0 + GithubLookups(texts[..i], base.country, now)
      modifies base`geoCache
      ensures base.Valid()
      ensures found' == GithubFound(texts[..i + 1], base.country, now)
      ensures base.geoCache.Keys == keys0 + GithubLookups(texts[..i + 1], base.country, now)
    {
      GithubFoundStep(texts, i, base.country, now);
      GithubLookupsStep(texts, i, base.country, now);
      var countryProxies := ListFallback(texts[i], GithubNames[i], now);
      found' := found + countryProxies;
    }

    /** One GitHub list: skipped when it failed or is blank, else parsed and filtered by country. */
    method ListFallback(text: Option<string>, name: string, now: int) returns (countryProxies: seq<Entry>)
      requires base.Valid()
      modifies base`geoCache
      ensures base.Valid()
      ensures countryProxies == ListFound(text, name, base.country, now)
      ensures base.geoCache.Keys == old(base.geoCache.Keys) + ListLookups(text, name, base.country, now)
    {
      countryProxies := [];
      if text.Some? && !IsBlank(text.value) {
        var proxies := ParseTextList(text.value, name, now);
        countryProxies := KeepCountry(proxies);
      }
    }

    /** The FreeProxy shortcut's marking loop. */
    static method MarkFreeProxies(free: seq<Entry>, now: int) returns (marked: seq<Entry>)
      ensures marked == MarkFree(free, now)
    {
      marked := free;
      var i := 0;
      while i < |marked|
        invariant 0 <= i <= |marked| == |free|
        invariant forall j :: 0 <= j < i ==> marked[j] == MarkFree(free, now)[j]
        invariant forall j :: i <= j < |marked| ==> marked[j] == free[j]
      {
        marked := marked[i := marked[i].(speed := Some(UnvalidatedSpeed), validated := Some(false), lastChecked := Some(now))];
        i := i + 1;
      }
    }

    /** The unvalidated fallback's marking loop. */
    static method MarkUnvalidatedProxies(filtered: seq<Entry>, now: int) returns (marked: seq<Entry>)
      ensures marked == MarkUnvalidated(filtered, now)
    {
      marked := filtered;
      var i := 0;
      while i < |marked|
        invariant 0 <= i <= |marked| == |filtered|
        invariant forall j :: 0 <= j < i ==> marked[j] == MarkUnvalidated(filtered, now)[j]
        invariant forall j :: i <= j < |marked| ==> marked[j] == filtered[j]
      {
        var proxy := marked[i];
        if proxy.speed.None? {
          proxy := proxy.(speed := Some(UnvalidatedSpeed));
        }
        proxy := proxy.(validated := Some(false), lastChecked := Some(now));
        marked := marked[i := proxy];
        i := i + 1;
      }
    }

    /** The gathering phase: the main sources in order, then the GitHub fallback when fewer than `maxProxies` were found. */
    method GatherAll(main: seq<Option<seq<Entry>>>, github: seq<Option<string>>, maxProxies: int, now: int)
      returns (allProxies: seq<Entry>)
      requires base.Valid() && |github| == |GithubNames|
      modifies base`geoCache
      ensures base.Valid()
      ensures allProxies == AllGathered(main, github, base.country, maxProxies, now)
      ensures base.geoCache.Keys == old(base.geoCache.Keys) + GatherLookups(main, github, base.country, maxProxies, now)
    {
      allProxies := [];
      var i := 0;
      while i < |main|
        invariant 0 <= i <= |main|
        invariant allProxies == Gathered(main[..i])
      {
        assert main[..i + 1][..i] == main[..i];
        if main[i].Some? {
          allProxies := allProxies + main[i].value;
        }
        i := i + 1;
      }
      assert main[..|main|] == main;
      if |allProxies| < maxProxies {
        var found := GithubFallback(github, now);
        allProxies := allProxies + found;
      }
    }

    /**
     * `fetch_proxies`, the network results given: the main sources' parsed
     * lists (`None` for a failed or blank answer), the GitHub lists' texts,
     * the probe, and the clock reading.
     */
    method FetchProxies(main: seq<Option<seq<Entry>>>, github: seq<Option<string>>,
                        probe: string -> Option<real>, maxProxies: int, now: int)
      returns (result: Result<seq<Entry>, Error>)
      requires Valid() && |main| == |MainSources| && |github| == |GithubNames|
      modifies this`proxyCache, base`geoCache
      ensures Valid()
      ensures var run := CountryOutcome(base.country, main, github, probe, old(proxyCache), maxProxies, now);
        result == run.result && proxyCache == run.cache
      ensures base.geoCache.Keys == old(base.geoCache.Keys) + CountryLookups(base.country, main, github, maxProxies, now)
    {
      var allProxies := GatherAll(main, github, maxProxies, now);
      result := FetchGathered(allProxies, main[FreeProxyIndex], probe, maxProxies, now);
    }

    /** The rest of `fetch_proxies` once the sources and the fallback have answered. */
    method FetchGathered(allProxies: seq<Entry>, free: Option<seq<Entry>>, probe: string -> Option<real>,
                         maxProxies: int, now: int)
      returns (result: Result<seq<Entry>, Error>)
      requires Valid()
      modifies this`proxyCache, base`geoCache
      ensures Valid()
      ensures var run := GatheredOutcome(base.country, allProxies, free, probe, old(proxyCache), maxProxies, now);
        result == run.result && proxyCache == run.cache
      ensures base.geoCache.Keys == old(base.geoCache.Keys) + GatheredLookups(base.country, allProxies, free, maxProxies)
    {
      if allProxies == [] {
        return Failure(ProxyFetchError);
      }
      if base.country in LimitedCountries && free.Some? {
        var freeProxies := free.value;
        if freeProxies != [] {
          var marked := MarkFreeProxies(freeProxies, now);
          return Success(Prefix(marked, maxProxies));
        }
      }
      var filtered, updated := base.FilterAndDeduplicate(allProxies, maxProxies);
      ghost var kept := filtered;
      if |filtered| < 5 {
        if base.country in LimitedCountries && |filtered| < 2 {
          var countryFiltered := CountryMatches(updated, base.country);
          if countryFiltered != [] {
            filtered := countryFiltered;
          }
        }
      }
      assert filtered == ToValidate(kept, updated, base.country);
      var validated := ValidateProxies(filtered, probe, now);
      if |validated| == 0 && |filtered| > 0 {
        var marked := MarkUnvalidatedProxies(filtered, now);
        return Success(Prefix(marked, maxProxies));
      }
      return Success(Prefix(SortBy(validated, SpeedKey), maxProxies));
    }
  }

  /**
   * `CountryProxyFetcher(country_code)`: a missing or empty code raises
   * `ValueError`; otherwise the fetcher holds the code upper-cased, the
   * five main sources and an empty cache.
   */
  method NewCountryFetcher(countryCode: Option<string>) returns (r: Result<CountryFetcher, Error>)
    ensures r.Failure? <==> countryCode.None? || countryCode.value == ""
    ensures r.Failure? ==> r.error == ValueError
    ensures r.Success? ==>
      && fresh(r.value) && r.value.Valid()
      && r.value.base.country == Upper(countryCode.value)
      && r.value.sources == MainSources && r.value.proxyCache == map[]
  {
    if countryCode.None? || countryCode.value == "" {
      return Failure(ValueError);
    }
    var f := new CountryFetcher(countryCode.value);
    return Success(f);
  }
}
