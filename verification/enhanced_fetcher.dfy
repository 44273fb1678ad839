/**
 * `ProxyFetcher`, the enhanced fetcher: six declared sources ordered by
 * country support and priority and cut to `max_sources`, a fixed table of
 * country names, and the post-processing of a fetch (unknown countries
 * guessed, then the shared filter). The concurrent fetch itself is not
 * modelled: its outcome, the concatenated entries, is an input.
 */
module EnhancedFetch {
  import opened Wrappers
  import opened PyText
  import opened Seqs
  import opened Records
  import opened BaseFetch
  import opened Geonode

  // ---------------------------------------------------------------------
  // `_build_sources`
  // ---------------------------------------------------------------------

  /** Which parser a source's text goes to. */
  datatype Parser = TextList | GeonodeApi | FreeProxyListPage

  /** The sources' names: 'github-clarketm', 'github-speedx', 'github-monosans', 'proxyscrape', 'geonode', 'free-proxy-list'. */
  datatype SourceName = GithubClarketm | GithubSpeedx | GithubMonosans | ProxyScrape | GeoNode | FreeProxyListNet

  /** A source entry; the URL is left out. */
  datatype Source = Source(name: SourceName, parser: Parser, priority: int, supportsCountry: bool)

  /** The sources in declaration order. */
  const DeclaredSources: seq<Source> := [
    Source(GithubClarketm, TextList, 1, false),
    Source(GithubSpeedx, TextList, 1, false),
    Source(GithubMonosans, TextList, 1, false),
    Source(ProxyScrape, TextList, 2, true),
    Source(GeoNode, GeonodeApi, 2, true),
    Source(FreeProxyListNet, FreeProxyListPage, 3, false)
  ]

  /** The constructor's default `max_sources`. */
  const DefaultMaxSources: int := 8

  /** `lambda s: 0 if s['supports_country'] else 1`. */
  function CountryFirst(s: Source): SortKey {
    Finite(if s.supportsCountry then 0.0 else 1.0)
  }

  /** `lambda s: s['priority']`. */
  function ByPriority(s: Source): SortKey {
    Finite(s.priority as real)
  }

  /** The list after both sorts, before the cut: the country sort only when a country is set. */
  function OrderedSources(country: string): seq<Source> {
    var byCountry := if country != "" then SortBy(DeclaredSources, CountryFirst) else DeclaredSources;
    SortBy(byCountry, ByPriority)
  }

  lemma DeclaredDistinct()
    ensures Distinct(DeclaredSources)
  {
    forall i, j | 0 <= i < j < |DeclaredSources| ensures DeclaredSources[i] != DeclaredSources[j] {
      assert DeclaredSources[i].name != DeclaredSources[j].name;
    }
  }

  /** Both orderings are rearrangements of the six sources. */
  lemma OrderedPerm(country: string)
    ensures multiset(OrderedSources(country)) == multiset(DeclaredSources)
    ensures |OrderedSources(country)| == 6
  {
    SortByPerm(DeclaredSources, CountryFirst);
    var byCountry := if country != "" then SortBy(DeclaredSources, CountryFirst) else DeclaredSources;
    SortByPerm(byCountry, ByPriority);
  }

  /** Neither ordering repeats a source. */
  lemma OrderedDistinct(country: string)
    ensures Distinct(OrderedSources(country))
  {
    DeclaredDistinct();
    OrderedPerm(country);
    DistinctPerm(DeclaredSources, OrderedSources(country));
  }

  /** Both orderings are in non-decreasing priority. */
  lemma OrderedSorted(country: string)
    ensures SortedBy(OrderedSources(country), ByPriority)
  {
    var byCountry := if country != "" then SortBy(DeclaredSources, CountryFirst) else DeclaredSources;
    SortBySorted(byCountry, ByPriority);
  }

  /**
   * `_build_sources`: the declared list, sorted by country support when a
   * country is set, then by priority, then cut to `max_sources` (a negative
   * bound counts from the end, as a Python slice does). The result holds
   * declared sources, none twice, in non-decreasing priority.
   */
  method BuildSources(country: string, maxSources: int) returns (sources: seq<Source>)
    ensures sources == Prefix(OrderedSources(country), maxSources)
    ensures SortedBy(sources, ByPriority)
    ensures Distinct(sources)
    ensures multiset(sources) <= multiset(DeclaredSources)
    ensures maxSources >= 0 ==> |sources| <= maxSources
  {
    sources := DeclaredSources;
    if country != "" {
      sources := SortBy(sources, CountryFirst);
    }
    sources := SortBy(sources, ByPriority);
    OrderedSorted(country);
    OrderedDistinct(country);
    OrderedPerm(country);
    PrefixKeeps(sources, maxSources, ByPriority);
    sources := Prefix(sources, maxSources);
  }

  /** With the default bound of 8, all six sources are kept. */
  lemma DefaultKeepsAll(country: string)
    ensures Prefix(OrderedSources(country), DefaultMaxSources) == OrderedSources(country)
    ensures multiset(Prefix(OrderedSources(country), DefaultMaxSources)) == multiset(DeclaredSources)
  {
    OrderedPerm(country);
  }

  /** Without a country, sources of equal priority keep their declaration order. */
  lemma NoCountryKeepsDeclarationOrder(k: SortKey)
    ensures WithKey(OrderedSources(""), ByPriority, k) == WithKey(DeclaredSources, ByPriority, k)
  {
    SortByStable(DeclaredSources, ByPriority, k);
  }

  /** With a country, among sources of equal priority, those supporting a country come first. */
  lemma CountrySupportFirst(country: string, k: SortKey)
    requires country != ""
    ensures SortedBy(WithKey(OrderedSources(country), ByPriority, k), CountryFirst)
  {
    var byCountry := SortBy(DeclaredSources, CountryFirst);
    SortByStable(byCountry, ByPriority, k);
    SortBySorted(DeclaredSources, CountryFirst);
    WithKeySubseq(byCountry, ByPriority, k);
    SubseqSorted(WithKey(byCountry, ByPriority, k), byCountry, CountryFirst);
  }

  /** The declared list is already in non-decreasing priority. */
  lemma DeclaredSorted()
    ensures SortedBy(DeclaredSources, ByPriority)
  {
  }

  /** The country sort on the last four sources: the two supporting a country move to the front. */
  lemma CountrySortLastFour()
    ensures var d := DeclaredSources;
      SortBy(d[2..], CountryFirst) == [d[3], d[4], d[2], d[5]]
  {
    var d := DeclaredSources;
    var m, p, g, f := d[2], d[3], d[4], d[5];
    assert d[5..] == [f] && d[4..] == [g, f] && d[3..] == [p, g, f] && d[2..] == [m, p, g, f];
    assert SortBy([f], CountryFirst) == [f];
    assert SortBy(d[4..], CountryFirst) == [g, f];
    assert SortBy(d[3..], CountryFirst) == [p, g, f];
    assert Insert(m, [f], CountryFirst) == [m, f];
    assert Insert(m, [g, f], CountryFirst) == [g, m, f];
    assert Insert(m, [p, g, f], CountryFirst) == [p, g, m, f];
  }

  /** The country sort on the declared list: 'proxyscrape' and 'geonode' first, the rest in declaration order. */
  lemma CountrySortDeclared()
    ensures var d := DeclaredSources;
      SortBy(d, CountryFirst) == [d[3], d[4], d[0], d[1], d[2], d[5]]
  {
    var d := DeclaredSources;
    var c, sp, m, p, g, f := d[0], d[1], d[2], d[3], d[4], d[5];
    CountrySortLastFour();
    assert d[1..][1..] == d[2..] && d[1..][0] == sp && d[1..] != [];
    assert SortBy(d[1..], CountryFirst) == Insert(sp, [p, g, m, f], CountryFirst);
    assert Insert(sp, [m, f], CountryFirst) == [sp, m, f];
    assert Insert(sp, [g, m, f], CountryFirst) == [g, sp, m, f];
    assert Insert(sp, [p, g, m, f], CountryFirst) == [p, g, sp, m, f];
    assert Insert(c, [sp, m, f], CountryFirst) == [c, sp, m, f];
    assert Insert(c, [g, sp, m, f], CountryFirst) == [g, c, sp, m, f];
    assert Insert(c, [p, g, sp, m, f], CountryFirst) == [p, g, c, sp, m, f];
  }

  /** The priority sort on the country order's last five: 'geonode' moves behind the three GitHub lists. */
  lemma PrioritySortLastFive()
    ensures var d := DeclaredSources;
      SortBy([d[4], d[0], d[1], d[2], d[5]], ByPriority) == [d[0], d[1], d[2], d[4], d[5]]
  {
    var d := DeclaredSources;
    var c, sp, m, g, f := d[0], d[1], d[2], d[4], d[5];
    var y := [g, c, sp, m, f];
    assert y[1..] == [c, sp, m, f];
    assert SortedBy([c, sp, m, f], ByPriority);
    SortByOrdered([c, sp, m, f], ByPriority);
    assert Insert(g, [f], ByPriority) == [g, f];
    assert Insert(g, [m, f], ByPriority) == [m, g, f];
    assert Insert(g, [sp, m, f], ByPriority) == [sp, m, g, f];
    assert Insert(g, [c, sp, m, f], ByPriority) == [c, sp, m, g, f];
  }

  /** The country sort, then the priority sort, give back the declaration order. */
  lemma CountryThenPriority()
    ensures SortBy(SortBy(DeclaredSources, CountryFirst), ByPriority) == DeclaredSources
  {
    var d := DeclaredSources;
    var c, sp, m, p, g, f := d[0], d[1], d[2], d[3], d[4], d[5];
    CountrySortDeclared();
    PrioritySortLastFive();
    var x := [p, g, c, sp, m, f];
    assert x[1..] == [g, c, sp, m, f];
    assert Insert(p, [g, f], ByPriority) == [p, g, f];
    assert Insert(p, [m, g, f], ByPriority) == [m, p, g, f];
    assert Insert(p, [sp, m, g, f], ByPriority) == [sp, m, p, g, f];
    assert Insert(p, [c, sp, m, g, f], ByPriority) == [c, sp, m, p, g, f];
  }

  /**
   * On this table the country sort changes nothing: within each priority
   * the sources agree on country support, so with or without a country the
   * order is the declaration order.
   */
  lemma OrderIsDeclarationOrder(country: string)
    ensures OrderedSources(country) == DeclaredSources
  {
    if country != "" {
      CountryThenPriority();
    } else {
      DeclaredSorted();
      SortByOrdered(DeclaredSources, ByPriority);
    }
  }

  // ---------------------------------------------------------------------
  // `_build_country_map` and `get_available_countries`
  // ---------------------------------------------------------------------

  /** The name-to-code table, in declaration order (first half). */
  const CountryNamesFirst: seq<(string, string)> := [
    ("united states", "US"), ("usa", "US"), ("united kingdom", "GB"), ("uk", "GB"),
    ("germany", "DE"), ("france", "FR"), ("canada", "CA"), ("australia", "AU"),
    ("netherlands", "NL"), ("russia", "RU"), ("china", "CN"), ("japan", "JP"),
    ("brazil", "BR"), ("india", "IN"), ("singapore", "SG"), ("south korea", "KR"),
    ("italy", "IT"), ("spain", "ES"), ("sweden", "SE"), ("switzerland", "CH")
  ]

  /** The name-to-code table, in declaration order (second half). */
  const CountryNamesSecond: seq<(string, string)> := [
    ("poland", "PL"), ("turkey", "TR"), ("mexico", "MX"), ("indonesia", "ID"),
    ("thailand", "TH"), ("vietnam", "VN"), ("ukraine", "UA"), ("egypt", "EG"),
    ("south africa", "ZA"), ("argentina", "AR"), ("pakistan", "PK"), ("malaysia", "MY"),
    ("ireland", "IE"), ("denmark", "DK"), ("finland", "FI"), ("norway", "NO"),
    ("belgium", "BE"), ("austria", "AT"), ("portugal", "PT"), ("greece", "GR")
  ]

  const CountryNames: seq<(string, string)> := CountryNamesFirst + CountryNamesSecond

  /** Two upper-case ASCII letters. */
  predicate IsCountryCode(c: string) {
    |c| == 2 && 'A' <= c[0] <= 'Z' && 'A' <= c[1] <= 'Z'
  }

  /** A dictionary literal: a later pair for the same key wins. */
  function MapOf(pairs: seq<(string, string)>): (m: map<string, string>)
    ensures m.Keys == set i | 0 <= i < |pairs| :: pairs[i].0
    ensures forall k :: k in m ==> exists i :: 0 <= i < |pairs| && pairs[i] == (k, m[k])
  {
    if pairs == [] then map[]
    else
      var last := pairs[|pairs| - 1];
      var m' := MapOf(pairs[..|pairs| - 1]);
      assert forall i :: 0 <= i < |pairs| - 1 ==> pairs[..|pairs| - 1][i] == pairs[i];
      m'[last.0 := last.1]
  }

  /** `get_available_countries`: the table as a dictionary. */
  function AvailableCountries(): map<string, string> {
    MapOf(CountryNames)
  }

  lemma CodesFirst()
    ensures forall i :: 0 <= i < |CountryNamesFirst| ==> IsCountryCode(CountryNamesFirst[i].1)
  {
  }

  lemma CodesSecond()
    ensures forall i :: 0 <= i < |CountryNamesSecond| ==> IsCountryCode(CountryNamesSecond[i].1)
  {
  }

  /** Every code the dictionary offers is two upper-case letters. */
  lemma AvailableCountryCodes()
    ensures forall name :: name in AvailableCountries() ==> IsCountryCode(AvailableCountries()[name])
    ensures "usa" in AvailableCountries() && "uk" in AvailableCountries() && "greece" in AvailableCountries()
  {
    CodesFirst();
    CodesSecond();
    forall name | name in AvailableCountries() ensures IsCountryCode(AvailableCountries()[name]) {
      var i :| 0 <= i < |CountryNames| && CountryNames[i] == (name, AvailableCountries()[name]);
      if i < |CountryNamesFirst| {
        assert CountryNames[i] == CountryNamesFirst[i];
      } else {
        assert CountryNames[i] == CountryNamesSecond[i - |CountryNamesFirst|];
      }
    }
    assert CountryNames[1].0 == "usa" && CountryNames[3].0 == "uk";
    assert CountryNames[39].0 == "greece";
  }

  // ---------------------------------------------------------------------
  // `fetch_proxies`: guess unknown countries, then the shared filter
  // ---------------------------------------------------------------------

  /** An entry whose country is exactly 'unknown' (or absent) gets the heuristic's answer, when a country is set. */
  function Annotate(e: Entry, country: string): Entry {
    if country != "" && CountryOf(e) == "unknown" then e.(country := Some(DetectCountry(e.proxy))) else e
  }

  /** The fetched list after the annotation loop. */
  function AnnotateAll(ps: seq<Entry>, country: string): (r: seq<Entry>)
    ensures |r| == |ps| && forall i :: 0 <= i < |ps| ==> r[i] == Annotate(ps[i], country)
  {
    seq(|ps|, i requires 0 <= i < |ps| => Annotate(ps[i], country))
  }

  /** The addresses the annotation loop looks up among the first `n` entries. */
  function LookedUp(ps: seq<Entry>, country: string, n: nat): set<string>
    requires n <= |ps|
  {
    set i | 0 <= i < n && country != "" && CountryOf(ps[i]) == "unknown" :: ps[i].proxy
  }

  /** One more entry adds its address to the lookups exactly when its country is unknown (and a target is set). */
  lemma LookedUpStep(ps: seq<Entry>, country: string, i: nat)
    requires i < |ps|
    ensures LookedUp(ps, country, i + 1)
         == LookedUp(ps, country, i) + (if country != "" && CountryOf(ps[i]) == "unknown" then {ps[i].proxy} else {})
  {
  }

  /** What `fetch_proxies` returns or raises for a fetched list. */
  function FetchOutcome(ps: seq<Entry>, country: string, maxProxies: int): (r: Result<seq<Entry>, Error>)
    ensures r.Failure? ==> r.error == ProxyFetchError
    ensures r.Success? ==> r.value != []
  {
    var kept := FilterFrom(AnnotateAll(ps, country), country, maxProxies, 0).kept;
    if kept == [] then Failure(ProxyFetchError) else Success(kept)
  }

  /** No entry of the list is appended on the heuristic path of the filter. */
  predicate NoHeuristicKeep(ps: seq<Entry>, target: string) {
    forall e :: e in ps ==> Screen(e, target).verdict != KeptByHeuristic
  }

  /** Without heuristic appends, the limit check bounds the output (one entry at least gets through). */
  lemma {:induction false} BoundWithoutHeuristicKeep(ps: seq<Entry>, target: string, maxProxies: int, count: nat)
    requires NoHeuristicKeep(ps, target)
    ensures |FilterFrom(ps, target, maxProxies, count).kept| + count
         <= if maxProxies >= count + 1 then maxProxies else count + 1
    decreases |ps|
  {
    if ps != [] {
      assert ps[0] in ps;
      assert NoHeuristicKeep(ps[1..], target) by {
        forall e | e in ps[1..] ensures Screen(e, target).verdict != KeptByHeuristic {
          assert e in ps;
        }
      }
      BoundWithoutHeuristicKeep(ps[1..], target, maxProxies, count);
      BoundWithoutHeuristicKeep(ps[1..], target, maxProxies, count + 1);
    }
  }

  /** An annotated entry never takes the heuristic path to the output: its guess, if any, is already in place. */
  lemma AnnotatedNotKeptByHeuristic(e: Entry, target: string)
    requires Upper(CountryOf(e)) == "UNKNOWN" ==> CountryOf(e) == "unknown"
    ensures Screen(Annotate(e, target), target).verdict != KeptByHeuristic
  {
  }

  /**
   * The annotation restores the limit: when every country that reads as
   * unknown is spelt exactly 'unknown' (or absent), no entry reaches the
   * filter's heuristic append, so with a limit of at least one no more
   * than the limit is returned.
   */
  lemma AnnotatedWithinLimit(ps: seq<Entry>, target: string, maxProxies: int)
    requires maxProxies >= 1
    requires forall e :: e in ps && Upper(CountryOf(e)) == "UNKNOWN" ==> CountryOf(e) == "unknown"
    ensures |FilterFrom(AnnotateAll(ps, target), target, maxProxies, 0).kept| <= maxProxies
  {
    var a := AnnotateAll(ps, target);
    forall e | e in a ensures Screen(e, target).verdict != KeptByHeuristic {
      var i :| 0 <= i < |a| && a[i] == e;
      assert ps[i] in ps;
      AnnotatedNotKeptByHeuristic(ps[i], target);
    }
    BoundWithoutHeuristicKeep(a, target, maxProxies, 0);
  }

  /** A returned list is never empty, and holds well-formed addresses only. */
  lemma FetchOutcomeFacts(ps: seq<Entry>, country: string, maxProxies: int)
    ensures FetchOutcome(ps, country, maxProxies).Failure? ==> FetchOutcome(ps, country, maxProxies).error == ProxyFetchError
    ensures FetchOutcome(ps, country, maxProxies).Success? ==>
      var r := FetchOutcome(ps, country, maxProxies).value;
      && r != [] && (forall e :: e in r ==> WellFormed(e))
      && (country != "" ==> forall e :: e in r ==> Upper(CountryOf(e)) == Upper(country))
  {
    FilterKeptWellFormed(AnnotateAll(ps, country), country, maxProxies, 0);
    if country != "" {
      FilterKeepsTarget(AnnotateAll(ps, country), country, maxProxies);
    }
  }

  /** An empty fetch always raises. */
  lemma EmptyFetchRaises(country: string, maxProxies: int)
    ensures FetchOutcome([], country, maxProxies) == Failure(ProxyFetchError)
  {
    assert AnnotateAll([], country) == [];
  }

  // ---------------------------------------------------------------------
  // The fetcher object
  // ---------------------------------------------------------------------

  class EnhancedFetcher {
    /** The shared state: the normalised country and the geolocation cache. */
    const base: BaseFetcher
    const maxSources: int
    /** `self.sources`, built once by the constructor. */
    const sources: seq<Source>

    constructor (country: Option<string>, maxSources: int)
      ensures fresh(base) && base.Valid() && base.geoCache == map[]
      ensures base.country == NormalizeCountry(country) && this.maxSources == maxSources
      ensures sources == Prefix(OrderedSources(base.country), maxSources)
    {
      var b := new BaseFetcher(country);
      var s := BuildSources(b.country, maxSources);
      base := b;
      this.maxSources := maxSources;
      sources := s;
    }

    /**
     * `fetch_proxies` after the concurrent fetch: with a country set, each
     * entry whose country is exactly 'unknown' gets the heuristic's guess
     * (through the cache); then the shared filter runs, and an empty result
     * raises `ProxyFetchError`. The cache gains the addresses looked up.
     */
    method FetchProxies(allProxies: seq<Entry>, maxProxies: int) returns (result: Result<seq<Entry>, Error>)
      requires base.Valid()
      modifies base`geoCache
      ensures base.Valid()
      ensures result == FetchOutcome(allProxies, base.country, maxProxies)
      ensures base.geoCache.Keys == old(base.geoCache.Keys) + LookedUp(allProxies, base.country, |allProxies|)
                + FilterFrom(AnnotateAll(allProxies, base.country), base.country, maxProxies, 0).probed
    {
      var proxies := allProxies;
      if base.country != "" {
        proxies := AnnotateCountries(allProxies);
      }
      assert proxies == AnnotateAll(allProxies, base.country);
      var filtered, _ := base.FilterAndDeduplicate(proxies, maxProxies);
      if filtered == [] {
        return Failure(ProxyFetchError);
      }
      return Success(filtered);
    }

    /** The annotation loop: each entry of unknown country has the guessed country written into it, through the cache. */
    method AnnotateCountries(allProxies: seq<Entry>) returns (proxies: seq<Entry>)
      requires base.Valid() && base.country != ""
      modifies base`geoCache
      ensures base.Valid()
      ensures proxies == AnnotateAll(allProxies, base.country)
      ensures base.geoCache.Keys == old(base.geoCache.Keys) + LookedUp(allProxies, base.country, |allProxies|)
    {
      proxies := allProxies;
      var i := 0;
      while i < |proxies|
        invariant 0 <= i <= |proxies| == |allProxies| && base.Valid()
        invariant forall j :: 0 <= j < i ==> proxies[j] == Annotate(allProxies[j], base.country)
        invariant forall j :: i <= j < |proxies| ==> proxies[j] == allProxies[j]
        invariant base.geoCache.Keys == old(base.geoCache.Keys) + LookedUp(allProxies, base.country, i)
      {
        LookedUpStep(allProxies, base.country, i);
        ghost var seen := LookedUp(allProxies, base.country, i);
        ghost var added := if CountryOf(allProxies[i]) == "unknown" then {allProxies[i].proxy} else {};
        var annotated := AnnotateOne(proxies[i]);
        assert base.geoCache.Keys == (old(base.geoCache.Keys) + seen) + added;
        assert (old(base.geoCache.Keys) + seen) + added == old(base.geoCache.Keys) + (seen + added);
        proxies := proxies[i := annotated];
        i := i + 1;
      }
    }

    /** One turn of the annotation loop: an unknown country is replaced by the guess, which is cached. */
    method AnnotateOne(proxy: Entry) returns (annotated: Entry)
      requires base.Valid() && base.country != ""
      modifies base`geoCache
      ensures base.Valid()
      ensures annotated == Annotate(proxy, base.country)
      ensures base.geoCache.Keys == old(base.geoCache.Keys) + if CountryOf(proxy) == "unknown" then {proxy.proxy} else {}
    {
      annotated := proxy;
      if CountryOf(proxy) == "unknown" {
        var detected := base.GetProxyCountry(proxy.proxy);
        annotated := proxy.(country := Some(detected));
      }
    }

    /** `_parse_geonode` after decoding: the item's own `last_checked` is kept when present. */
    method ParseGeonode(items: seq<Item>, sourceName: string, now: int) returns (result: seq<Entry>)
      ensures result == GeonodeEntries(items, base.country, sourceName, now, true)
    {
      result := ParseItems(items, base.country, sourceName, now, true);
    }
  }
}
