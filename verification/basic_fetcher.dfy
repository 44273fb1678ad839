/**
 * `BasicProxyFetcher`: three fixed sources, plus GeoNode when a country is
 * set; a fetch raises only when nothing at all was fetched, and otherwise
 * returns what the shared filter keeps. The concurrent fetch is not
 * modelled: its outcome, the concatenated entries, is an input.
 */
module BasicFetch {
  import opened Wrappers
  import opened PyText
  import opened Records
  import opened BaseFetch
  import opened Geonode
  import EnhancedFetch

  /** The sources' names: 'proxyscrape', 'github-speedx', 'github-shifty', 'geonode'. */
  datatype BasicName = ProxyScrapeApi | GithubSpeedxList | GithubShiftyList | GeoNodeApi

  /** Which parser a source's text goes to. */
  datatype BasicParser = TextLines | GeonodeJson

  /** A source entry; the URL is left out. */
  datatype BasicSource = BasicSource(name: BasicName, parser: BasicParser)

  /** The sources every basic fetcher has, in order. */
  const FixedSources: seq<BasicSource> := [
    BasicSource(ProxyScrapeApi, TextLines),
    BasicSource(GithubSpeedxList, TextLines),
    BasicSource(GithubShiftyList, TextLines)
  ]

  /** The source added for a country. */
  const GeonodeSource: BasicSource := BasicSource(GeoNodeApi, GeonodeJson)

  /**
   * `_build_sources`: the three fixed sources in order, then GeoNode, last,
   * exactly when a country is set.
   */
  method BuildSources(country: string) returns (sources: seq<BasicSource>)
    ensures |sources| >= 3 && sources[..3] == FixedSources
    ensures GeonodeSource in sources <==> country != ""
    ensures country != "" ==> |sources| == 4 && sources[3] == GeonodeSource
    ensures country == "" ==> |sources| == 3
  {
    sources := FixedSources;
    if country != "" {
      sources := sources + [GeonodeSource];
    }
  }

  /** What `fetch_proxies` returns or raises for a fetched list. */
  function BasicOutcome(allProxies: seq<Entry>, country: string, maxProxies: int): (r: Result<seq<Entry>, Error>)
    ensures r.Failure? <==> allProxies == []
    ensures r.Failure? ==> r.error == ProxyFetchError
  {
    if allProxies == [] then Failure(ProxyFetchError)
    else Success(FilterFrom(allProxies, country, maxProxies, 0).kept)
  }

  /**
   * The emptiness test comes before the filter: a non-empty fetch whose
   * entries are all dropped returns an empty list instead of raising, where
   * the enhanced fetcher raises on the same list.
   */
  lemma FilteredEmptyNotRaised(e: Entry, country: string, maxProxies: int)
    requires e.proxy == ""
    ensures BasicOutcome([e], country, maxProxies) == Success([])
    ensures EnhancedFetch.FetchOutcome([e], country, maxProxies) == Failure(ProxyFetchError)
  {
    assert [e][1..] == [];
    assert Screen(e, country).verdict == Skipped;
    assert FilterFrom([e], country, maxProxies, 0).kept == FilterFrom([], country, maxProxies, 0).kept == [];
    var a := EnhancedFetch.AnnotateAll([e], country);
    assert a[1..] == [] && a[0].proxy == "";
  }

  /** A fetch raises only when nothing was fetched; what it returns holds well-formed addresses only. */
  lemma BasicOutcomeFacts(allProxies: seq<Entry>, country: string, maxProxies: int)
    ensures BasicOutcome(allProxies, country, maxProxies).Failure? <==> allProxies == []
    ensures BasicOutcome(allProxies, country, maxProxies).Success? ==>
      forall e :: e in BasicOutcome(allProxies, country, maxProxies).value ==>
        WellFormed(e) && (country != "" ==> Upper(CountryOf(e)) == Upper(country))
  {
    FilterKeptWellFormed(allProxies, country, maxProxies, 0);
    if country != "" {
      FilterKeepsTarget(allProxies, country, maxProxies);
    }
  }

  class BasicFetcher {
    /** The shared state: the normalised country and the geolocation cache. */
    const base: BaseFetcher
    /** `self.sources`, built once by the constructor. */
    const sources: seq<BasicSource>

    constructor (country: Option<string>)
      ensures fresh(base) && base.Valid() && base.geoCache == map[]
      ensures base.country == NormalizeCountry(country)
      ensures GeonodeSource in sources <==> base.country != ""
    {
      var b := new BaseFetcher(country);
      var s := BuildSources(b.country);
      base := b;
      sources := s;
    }

    /**
     * `fetch_proxies` after the concurrent fetch: an empty fetch raises
     * `ProxyFetchError`; otherwise the shared filter's result is returned,
     * even when it is empty.
     */
    method FetchProxies(allProxies: seq<Entry>, maxProxies: int) returns (result: Result<seq<Entry>, Error>)
      requires base.Valid()
      modifies base`geoCache
      ensures base.Valid()
      ensures result == BasicOutcome(allProxies, base.country, maxProxies)
      ensures base.geoCache.Keys == old(base.geoCache.Keys)
                + if allProxies == [] then {} else FilterFrom(allProxies, base.country, maxProxies, 0).probed
    {
      if allProxies == [] {
        return Failure(ProxyFetchError);
      }
      var filtered, _ := base.FilterAndDeduplicate(allProxies, maxProxies);
      return Success(filtered);
    }

    /** `_parse_geonode` after decoding: every record is stamped with the clock reading. */
    method ParseGeonode(items: seq<Item>, sourceName: string, now: int) returns (result: seq<Entry>)
      ensures result == GeonodeEntries(items, base.country, sourceName, now, false)
    {
      result := ParseItems(items, base.country, sourceName, now, false);
    }
  }
}
