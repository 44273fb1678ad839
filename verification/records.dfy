/**
 * The dictionaries that flow through the pipeline, and the exception classes.
 *
 * A candidate or cached proxy is a Python dict with a handful of well-known
 * keys; a key that may be absent is an `Option`. The address key `proxy` is
 * set by every parser, and every reader that tolerates its absence reads it
 * as `''`, so it is a plain string here.
 */
module Records {
  import opened Wrappers

  /** The `cached_at` stamp of a cached record, read back as seconds. */
  datatype CacheStamp =
    | NoStamp              // key absent, or an empty string
    | Garbled              // present but not in the '%Y-%m-%d %H:%M:%S' form
    | StampedAt(seconds: int)

  /** A proxy dictionary: a candidate from a source, possibly annotated later. */
  datatype Entry = Entry(
    proxy: string,                 // 'proxy': "ip:port"
    country: Option<string>,       // 'country'
    anonymity: Option<string>,     // 'anonymity'
    source: string,                // 'source'
    lastChecked: Option<int>,      // 'last_checked', in seconds
    speed: Option<real>,           // 'speed'
    validated: Option<bool>,       // 'validated'
    timestamp: Option<int>,        // 'timestamp' of the country fetcher's validation cache
    cachedAt: CacheStamp)          // 'cached_at' of the on-disk cache

  /** A freshly parsed candidate: only the five keys every parser writes. */
  function NewEntry(proxy: string, country: string, anonymity: string, source: string, now: int): Entry {
    Entry(proxy, Some(country), Some(anonymity), source, Some(now), None, None, None, NoStamp)
  }

  /** `d.get('country', 'unknown')`. */
  function CountryOf(e: Entry): string {
    e.country.GetOr("unknown")
  }

  /** `d.get('anonymity', 'unknown')`. */
  function AnonymityOf(e: Entry): string {
    e.anonymity.GetOr("unknown")
  }

  /** The dictionary `ProxyValidator.get_proxy_details` returns. */
  datatype Details = Details(
    proxy: string,
    status: string,
    speed: real,
    lastChecked: int,
    ip: string,
    requiresAuth: bool,
    country: string,
    anonymity: string)

  /**
   * The exceptions the pipeline raises. `ProxyFetchError` is a subclass of
   * `ProxyFinderError`; `ValueError` is the constructor check of the country
   * fetcher.
   */
  datatype Error = ProxyFinderError | ProxyFetchError | ValueError

  /** `isinstance(e, ProxyFinderError)`. */
  predicate IsProxyFinderError(e: Error) {
    e.ProxyFinderError? || e.ProxyFetchError?
  }
}
