# proxy-finder: the candidate-list pipeline, modelled in Dafny

proxy-finder collects free HTTP proxies from public lists, keeps the
addresses of the right shape and country, probes them, and hands back
working ones. This project models that pipeline once the network is taken
out. Every answer from the outside world becomes an input value:

- what a source returned, as a list of records or a text;
- the outcome of a socket connect, and of each HTTP probe (for the country fetcher's validation, one outcome per address);
- the latency a probe measured, and the clock reading (integer seconds).

The models, one per part of the pipeline:

- **Shared filter** (`BaseFetch`, base_fetcher.py). `_filter_and_deduplicate`
  is a loop over the caller's records that overwrites unknown countries in
  place. `_get_proxy_country` is a first-match prefix table, memoised in
  `geo_cache`. `_parse_text_list` reads one address per line.
- **ProxyFilter** (`ProxyFiltering`, filter.py). A stricter address check
  with octet and port ranges, and an anonymity filter.
- **ProxyValidator** (`Validation`, validator.py). The reachability gate, the
  ordered probe loop that stops at 407 or 200, the details record built
  from its final state, and the header classification.
- **ProxyStorage** (`Storage`, proxy_storage.py). The cache file is a field.
  Saving stamps and overwrites; loading keeps the recent records.
- **The three fetchers** (`EnhancedFetch`, `BasicFetch`, `CountryFetch`).
  Each builds its source list and post-processes what its sources
  gathered. The country fetcher also has a GitHub fallback, shortcuts for
  countries with few proxies, and a one-hour validation cache.
- **GeoNode items** (`Geonode`). The item filter that two fetchers' GeoNode
  parsers apply after decoding.
- **ProxyManager** (`Rotation`, rotation.py). The `get_proxy` retry loop and
  the `rotate_proxies` round loop. The fetch and the validator are
  functions passed in.

How the model is built:

- Records (Python dicts) are the datatype `Records.Entry`. A missing `proxy`
  key reads as `""`, which is what every reader's `.get('proxy', '')` gives.
- A fetcher's country is a string, with `""` for none.
- Inheritance from `BaseProxyFetcher` becomes composition: each fetcher
  class holds a `BaseFetcher` that owns the country and the geolocation
  cache.
- Where a method overwrites the caller's dicts in place, it returns the list
  as it stands afterwards (`updated`, `stamped`).
- Python's `list.sort(key=...)` is the stable insertion sort `Seqs.SortBy`.
  Its permutation, ordering and stability are proved once, in `Seqs`.
- The docstring of `_filter_and_deduplicate` promises de-duplication, but
  the code only counts the addresses it has seen. The model follows the
  code, and `BaseFetch.FilterKeepsDuplicates` shows that repeats survive.

## Model

| member | source | states |
|---|---|---|
| PyText.StripSpec | src/proxy_finder/core/base_fetcher.py:274 | `strip` keeps one contiguous middle part; what it drops on either side is white space, and the part kept neither starts nor ends with white space |
| PyText.TrimStartSpec | src/proxy_finder/core/base_fetcher.py:274 | the leading-space trim keeps a suffix, drops only white space and stops at the first other character |
| PyText.TrimEndSpec | src/proxy_finder/core/base_fetcher.py:274 | the trailing-space trim keeps a prefix, drops only white space and stops at the last other character |
| PyText.Split | src/proxy_finder/core/base_fetcher.py:198 | `split` on one character gives at least one piece, and no piece holds the separator |
| PyText.SplitAfter | src/proxy_finder/core/base_fetcher.py:198 | a leading piece without the separator is split off whole, and the rest is split in turn |
| PyText.SplitWhole | src/proxy_finder/core/base_fetcher.py:198 | a text without the separator splits into itself alone |
| PyText.JoinSplit | src/proxy_finder/core/base_fetcher.py:198 | joining the pieces of a split with the separator gives the text back (round trip) |
| PyText.SplitLines | src/proxy_finder/core/base_fetcher.py:273 | `splitlines` gives at least one line, and no line holds a line-break character |
| PyText.UpperAt | src/proxy_finder/core/base_fetcher.py:32 | upper-casing keeps the length and maps each character on its own |
| PyText.UpperIdempotent | src/proxy_finder/core/base_fetcher.py:158-159 | upper-casing twice is upper-casing once, so the target's second `upper()` changes nothing |
| PyText.DigitsValue | src/proxy_finder/core/filter.py:70-73 | the value of a digit string is below 10 to the power of its length |
| PyText.ParseIntDigits | src/proxy_finder/core/filter.py:70-73 | `int` of a plain digit string is that string's decimal value |
| PyText.ParseIntUnderscores | src/proxy_finder/core/validator.py:46 | `int` accepts an underscore between two digits and ignores it: "8_080" reads as 8080 |
| PyText.ParseIntMisplacedUnderscores | src/proxy_finder/core/validator.py:46 | a leading, trailing or doubled underscore is a `ValueError` (no number) |
| Seqs.Prefix | src/proxy_finder/core/enhanced_fetcher.py:93 | a Python slice `s[:k]` is a prefix of `s`, `k` long (capped at `|s|`); a negative `k` counts from the end |
| Seqs.SortByPerm | src/proxy_finder/core/enhanced_fetcher.py:87-92 | sorting rearranges the list: the same elements, each as often as before |
| Seqs.SortBySorted | src/proxy_finder/core/enhanced_fetcher.py:87-92 | the sorted list is in non-decreasing key order |
| Seqs.SortByStable | src/proxy_finder/core/enhanced_fetcher.py:87-92 | the sort is stable: the elements sharing a key keep their relative order |
| Seqs.SortByOrdered | src/proxy_finder/core/enhanced_fetcher.py:87-92 | sorting a list that is already in order leaves it unchanged |
| Seqs.PrefixKeeps | src/proxy_finder/core/enhanced_fetcher.py:93 | a prefix of a sorted list is sorted; a prefix of a list without repeats has none; it draws only on the whole |
| BaseFetch.AddressFromParts | src/proxy_finder/core/base_fetcher.py:149 | any four groups of one to three digits plus a port of one to five digits match the address pattern |
| BaseFetch.AddressParts | src/proxy_finder/core/base_fetcher.py:149 | conversely, a matching address is exactly its four groups and its port joined back with dots and a colon |
| BaseFetch.FirstMatchIsFirst | src/proxy_finder/core/base_fetcher.py:248-251 | the code is that of the first matching pattern in declaration order; no later pattern matters |
| BaseFetch.FirstMatchNone | src/proxy_finder/core/base_fetcher.py:256-258 | when no pattern matches, the answer is 'unknown' |
| BaseFetch.FirstMatchFromTable | src/proxy_finder/core/base_fetcher.py:248-258 | the answer is always 'unknown' or the code of some table entry |
| BaseFetch.DetectCountry | src/proxy_finder/core/base_fetcher.py:201-258 | the heuristic only ever answers one of the fourteen listed codes or 'unknown' |
| BaseFetch.DetectCountryLooksAtHost | src/proxy_finder/core/base_fetcher.py:198 | only the text before the first ':' is looked at; the port makes no difference |
| BaseFetch.DetectCountryPrefixQuirk | src/proxy_finder/core/base_fetcher.py:203 | the US alternative `104\.16` has no trailing dot, so 104.160.0.1 is also guessed as 'US' |
| BaseFetch.Resolve | src/proxy_finder/core/base_fetcher.py:163-165 | an entry leaves the loop body as it came, or, when it needs the heuristic, with its country overwritten by the guess |
| BaseFetch.ScreenAgrees | src/proxy_finder/core/base_fetcher.py:144-173 | the loop body skips an entry exactly when it is not selected; the heuristic runs exactly when the country reads 'UNKNOWN' and is not the target |
| BaseFetch.AdvanceMalformed | src/proxy_finder/core/base_fetcher.py:144-150 | an entry with no address, or one of the wrong shape, is passed over unchanged and nothing is kept |
| BaseFetch.AdvanceOtherCountry | src/proxy_finder/core/base_fetcher.py:157-169 | with a target set, a known country other than the target is passed over unchanged |
| BaseFetch.AdvanceGuessed | src/proxy_finder/core/base_fetcher.py:163-169 | an unknown country is overwritten with the guess even when the entry is then dropped; it is kept iff the guess is the target, and its address joins the looked-up set |
| BaseFetch.AdvanceSelected | src/proxy_finder/core/base_fetcher.py:170-177 | an entry of the target country, or any well-formed entry with no target, is appended and the loop goes on below the limit |
| BaseFetch.FilterBreak | src/proxy_finder/core/base_fetcher.py:173-177 | appending the entry that reaches the limit ends the loop, and the rest of the list is left untouched |
| BaseFetch.FilterKeptWellFormed | src/proxy_finder/core/base_fetcher.py:144-150 | every kept entry has a non-empty address of the pattern's shape; no octet or port range is checked |
| BaseFetch.FilterKeptSubsequence | src/proxy_finder/core/base_fetcher.py:143-177 | the kept entries are an order-preserving subsequence of the list as it stands afterwards; that list is the input with, at most, guessed countries written in |
| BaseFetch.FilterWithCountry | src/proxy_finder/core/base_fetcher.py:156-171 | only for a limit above the list's length, which the loop then never reaches: exactly the selected entries are kept (upper-cased country equal to the target, or unknown with the guess equal to the target), and the list afterwards has every such guess written in |
| BaseFetch.SelectAllCountry | src/proxy_finder/core/base_fetcher.py:156-171 | every entry the selection specification picks under a target carries the target's country, compared upper-cased |
| BaseFetch.KeptPrefixOfSelected | src/proxy_finder/core/base_fetcher.py:143-177 | whatever the limit and the count so far, the kept list is a prefix of the selected entries: the limit can only cut the selection short |
| BaseFetch.FilterKeepsTarget | src/proxy_finder/core/base_fetcher.py:156-177 | whatever the limit, with a target set every kept entry carries the target's country, compared upper-cased |
| BaseFetch.FilterFrom | src/proxy_finder/core/base_fetcher.py:143-177 | the list afterwards has exactly one entry per input entry, in place |
| BaseFetch.FilterWithoutCountry | src/proxy_finder/core/base_fetcher.py:143-177 | without a target nothing is resolved, and the loop keeps the first well-formed entries: `maxProxies` of them, but at least one |
| BaseFetch.KeptWithoutCountry | src/proxy_finder/core/base_fetcher.py:143-177 | without a target the kept list is the first `maxProxies - count` well-formed entries, but at least one |
| BaseFetch.UpdatedWithoutCountry | src/proxy_finder/core/base_fetcher.py:143-177 | without a target no entry is changed by the loop |
| BaseFetch.FilterBoundWithoutCountry | src/proxy_finder/core/base_fetcher.py:175-177 | without a target and with a limit of one or more, no more than the limit is returned |
| BaseFetch.FilterKeepsDuplicates | src/proxy_finder/core/base_fetcher.py:152-154 | `seen` is only counted, so the same address twice comes back twice |
| BaseFetch.HeuristicIgnoresLimit | src/proxy_finder/core/base_fetcher.py:166-169 | an entry kept by the heuristic is appended with no limit check after it |
| BaseFetch.FilterBoundExceededWithCountry | src/proxy_finder/core/base_fetcher.py:166-177 | with a target set, two heuristic-kept entries both come back whatever the limit |
| BaseFetch.FilterBoundExceededExample | src/proxy_finder/core/base_fetcher.py:166-177 | with target 'US' and a limit of one, an unknown-country 144.x address listed twice comes back twice |
| BaseFetch.HeuristicExample144 | src/proxy_finder/core/base_fetcher.py:163-169 | an unknown-country 144.x address is kept on the heuristic path when the target is 'US' |
| BaseFetch.KeptByHeuristicUS | src/proxy_finder/core/base_fetcher.py:163-169 | every US first-octet prefix yields such a heuristic keep under target 'US' |
| BaseFetch.GuessedUS | src/proxy_finder/core/base_fetcher.py:203-206 | a well-formed address whose first octet is a US prefix is guessed as 'US' |
| BaseFetch.FilterNonPositiveLimit | src/proxy_finder/core/base_fetcher.py:173-177 | a limit of zero or less still lets the first selected entry through, and only it |
| BaseFetch.ParseTextList | src/proxy_finder/core/base_fetcher.py:261-285 | the parser's loop returns the specification's list: one entry per accepted stripped line, in order |
| BaseFetch.ParseLine | src/proxy_finder/core/base_fetcher.py:274-284 | one line appends exactly one fresh entry when its stripped form is non-blank, not a comment and of the address shape, and nothing otherwise |
| BaseFetch.ParsedLinesSnoc | src/proxy_finder/core/base_fetcher.py:272-285 | a line added at the end of the text adds its own entry, if any, at the end of the parse |
| BaseFetch.ParsedLinesExact | src/proxy_finder/core/base_fetcher.py:272-285 | the parsed addresses are exactly the accepted stripped lines, in order and none missing; each entry has country and anonymity 'unknown' (or the given tag), the source name and the clock reading |
| BaseFetch.PatternStartsWithDigit | src/proxy_finder/core/base_fetcher.py:275-277 | the '#' test is redundant: a line of the address shape starts with a digit |
| BaseFetch.ParsedWellFormed | src/proxy_finder/core/base_fetcher.py:272-285 | every parsed entry passes the shared filter's address checks |
| BaseFetch.NormalizeCountry | src/proxy_finder/core/base_fetcher.py:32 | no country stays none (""), and a given one is upper-cased |
| BaseFetch.BaseFetcher.constructor | src/proxy_finder/core/base_fetcher.py:23-35 | the fetcher holds the normalised country and an empty geolocation cache |
| BaseFetch.MatchTable | src/proxy_finder/core/base_fetcher.py:248-258 | the pattern loop returns the code of the first pattern, in table order, that matches the host, and 'unknown' when none does |
| BaseFetch.BaseFetcher.GetProxyCountry | src/proxy_finder/core/base_fetcher.py:184-258 | the answer is the heuristic's for the address, whether cached or computed; afterwards the cache holds it under that address and every cached answer is still the heuristic's |
| BaseFetch.BaseFetcher.FilterAndDeduplicate | src/proxy_finder/core/base_fetcher.py:127-182 | the kept list and the caller's list as it stands afterwards are the loop specification's; the cache gains exactly the addresses handed to the heuristic |
| BaseFetch.BaseFetcher.ScreenUnknown | src/proxy_finder/core/base_fetcher.py:163-169 | an entry of unknown country has the guessed country written into it, is kept exactly when the guess is the target, and its address joins the cache |
| ProxyFiltering.NewProxyFilter | src/proxy_finder/core/filter.py:7-18 | the threshold is stored as given, and a missing or empty protocol list becomes HTTP and HTTPS |
| ProxyFiltering.ValidFormatIff | src/proxy_finder/core/filter.py:52-80 | the format check accepts an address iff it is four octets of one to three digits, each at most 255, then a colon and a port of two to five digits between 1 and 65535 |
| ProxyFiltering.ValidFormatFromPieces | src/proxy_finder/core/filter.py:63-80 | pieces that meet those conditions, joined, are accepted |
| ProxyFiltering.ValidFormatMatchesBasePattern | src/proxy_finder/core/filter.py:63 | whatever the strict check accepts also has the shared filter's looser shape |
| ProxyFiltering.SingleDigitPortRejected | src/proxy_finder/core/filter.py:63-66 | a one-digit port passes the shared filter's shape but fails this check |
| ProxyFiltering.LargeOctetRejected | src/proxy_finder/core/filter.py:73-74 | an octet above 255 is rejected whatever the rest |
| ProxyFiltering.EmptyAddressRejected | src/proxy_finder/core/filter.py:33-37 | a missing address reads as '' and is rejected |
| ProxyFiltering.DroppedForAnonymityIff | src/proxy_finder/core/filter.py:40-45 | an entry is dropped for anonymity iff the threshold is 'elite' and its tag is 'transparent' or 'anonymous' |
| ProxyFiltering.FilterProxies | src/proxy_finder/core/filter.py:20-50 | the loop returns the specification's list: each entry that passes, unchanged, in order |
| ProxyFiltering.FilterSpecSnoc | src/proxy_finder/core/filter.py:32-48 | filtering a list with one more entry at the end adds exactly that entry when it passes, and nothing otherwise |
| ProxyFiltering.LoopBodyPasses | src/proxy_finder/core/filter.py:33-48 | the loop body reaches the append exactly for an entry with an accepted address that the anonymity threshold does not drop |
| ProxyFiltering.FilterSpecSound | src/proxy_finder/core/filter.py:30-50 | the output is an order-preserving subsequence of unmodified input entries, each with an accepted address, and no passing entry is missing |
| ProxyFiltering.NonEliteChecksFormatOnly | src/proxy_finder/core/filter.py:8-40 | under any threshold but 'elite' (the default 'anonymous' included) only the address is checked |
| ProxyFiltering.EliteKeeps | src/proxy_finder/core/filter.py:41-45 | under 'elite' an entry is kept iff its address is accepted and its tag is neither 'transparent' nor 'anonymous' |
| ProxyFiltering.FilterIdempotent | src/proxy_finder/core/filter.py:20-50 | filtering the output again returns it unchanged |
| Validation.Round2 | src/proxy_finder/core/validator.py:141 | the rounded speed is within half a hundredth of the latency |
| Validation.FirstDecisive | src/proxy_finder/core/validator.py:111-133 | the position of the first 407 or 200 response: no earlier probe is decisive, and the one found is |
| Validation.ProbingAuth | src/proxy_finder/core/validator.py:109-130 | the auth flag ends set iff it was set before or a 407 arrives before any 200 |
| Validation.ProbingResponse | src/proxy_finder/core/validator.py:107-135 | the loop ends with the last response that arrived among the probes tried, with its latency; if every tried probe raised, the state is as it was |
| Validation.ProbingFromInitial | src/proxy_finder/core/validator.py:107-135 | from the initial state: no response iff every tried probe raised, otherwise the last arrival; the auth flag iff a 407 came before any 200 |
| Validation.InferAnonymity | src/proxy_finder/core/validator.py:169-177 | the guessed tier is one of 'elite', 'anonymous' and 'transparent' |
| Validation.InferAnonymityTiers | src/proxy_finder/core/validator.py:172-177 | 'elite' iff a truthy response under 2 s, 'anonymous' iff a truthy one from 2 s to under 5 s, 'transparent' iff no truthy response or 5 s or more |
| Validation.GetProxyDetails | src/proxy_finder/core/validator.py:56-184 | None exactly when no address is given, it does not split into host and port, the port is not an integer `int` accepts (ASCII digits, an optional sign, single underscores between digits), the port is outside 0..65535 (the connect's `OverflowError` is caught by the outer handler), or the connect fails; otherwise the record assembled from the probe loop's final state |
| Validation.AssembleFacts | src/proxy_finder/core/validator.py:138-177 | the record says 'valid'; auth iff a 407 came first; speed is the rounded latency of a truthy last response, else 999.99; country and anonymity are copied (default 'unknown') and an 'unknown' anonymity never stays |
| Validation.AuthMeansNoSpeed | src/proxy_finder/core/validator.py:128-141 | a 407 is a falsy response, so a proxy that asks for authentication gets the fallback speed |
| Validation.AllProbesFail | src/proxy_finder/core/validator.py:134-145 | when every probe raises, the record still says 'valid', with speed 999.99 |
| Validation.ValidateProxy | src/proxy_finder/core/validator.py:25-54 | `validate_proxy` answers True exactly when the address is non-empty and `get_proxy_details` would not give up at its gate: one colon, a port `int` accepts within 0..65535, and a successful connect |
| Validation.ValidateSplit | src/proxy_finder/core/validator.py:40-54 | for "host:port" with one colon the answer is whether the port is accepted (an integer in 0..65535) and the connect succeeded |
| Validation.ValidateWellFormed | src/proxy_finder/core/validator.py:40-54 | for "host:port" with a digit-only port, the answer is the outcome of the connect when the port is at most 65535, and False otherwise; no HTTP probe is made |
| Validation.UnderscorePortConnects | src/proxy_finder/core/validator.py:40-49 | a port written "8_080" is read as 8080, so the answer is just the outcome of the connect |
| Validation.PortOutOfRangeRefused | src/proxy_finder/core/validator.py:46-54 | an integer port outside 0..65535 makes the connect raise `OverflowError`, caught by the outer handler: `validate_proxy` answers False and `get_proxy_details` gives up |
| Validation.CheckAnonymityLevelCases | src/proxy_finder/core/validator.py:199-231 | the level is 'unknown' exactly when the request raised, the status was not 200 or the body was not JSON; on a decoded 200 only the X-Forwarded-For and Via names matter, and X-Forwarded-For alone decides 'transparent' |
| Validation.NoHeadersKeyElite | src/proxy_finder/core/validator.py:218-222 | a JSON body without a `headers` key reads as no headers, so the proxy is called 'elite' |
| Validation.CheckAnonymityLevel | src/proxy_finder/core/validator.py:186-231 | the answer is always one of 'elite', 'anonymous', 'transparent' and 'unknown' |
| Storage.Stamp | src/proxy_finder/utils/proxy_storage.py:50-51 | every record gets `cached_at` set to the clock reading, and nothing else changes |
| Storage.ProxyStorage.constructor | src/proxy_finder/utils/proxy_storage.py:14-28 | the storage sees the cache file as it is |
| Storage.ProxyStorage.SaveProxies | src/proxy_finder/utils/proxy_storage.py:39-58 | the caller's records come back stamped; the file then holds exactly that list (no merge), or, when the write fails, is left alone or unreadable, and nothing is raised |
| Storage.ProxyStorage.LoadProxies | src/proxy_finder/utils/proxy_storage.py:60-102 | the load returns the specification's list: the recent records, in stored order, or [] without a readable file |
| Storage.FreshRecordsExact | src/proxy_finder/utils/proxy_storage.py:84-96 | the loaded records are an order-preserving subsequence of the stored ones; each has a readable stamp no older than the bound (boundary included), and none such is missing |
| Storage.LoadWithoutFile | src/proxy_finder/utils/proxy_storage.py:73-100 | without a file, or with an unreadable one, the load returns [] |
| Storage.AllFreshLoaded | src/proxy_finder/utils/proxy_storage.py:84-94 | when every stored record is recent, the load returns the stored list as it is |
| Storage.SaveLoadRoundTrip | src/proxy_finder/utils/proxy_storage.py:50-94 | a list saved and loaded within the age bound comes back whole, stamped, in order |
| Storage.SaveLoadExpired | src/proxy_finder/utils/proxy_storage.py:91-94 | one second past the bound, the same list loads as [] |
| Storage.SaveThenLoad | src/proxy_finder/utils/proxy_storage.py:39-102 | saving through the storage object, then loading within the bound, gives back the stamped list |
| EnhancedFetch.OrderedPerm | src/proxy_finder/core/enhanced_fetcher.py:39-92 | both orderings are rearrangements of the six declared sources |
| EnhancedFetch.OrderedDistinct | src/proxy_finder/core/enhanced_fetcher.py:39-92 | neither ordering repeats a source |
| EnhancedFetch.OrderedSorted | src/proxy_finder/core/enhanced_fetcher.py:92 | both orderings are in non-decreasing priority |
| EnhancedFetch.BuildSources | src/proxy_finder/core/enhanced_fetcher.py:36-93 | the sources are the sorted list cut to `max_sources`: declared sources only, none twice, in non-decreasing priority, and no more than the bound |
| EnhancedFetch.DefaultKeepsAll | src/proxy_finder/core/enhanced_fetcher.py:15-93 | with the default bound of 8 all six sources are kept |
| EnhancedFetch.NoCountryKeepsDeclarationOrder | src/proxy_finder/core/enhanced_fetcher.py:92 | without a country, sources of equal priority keep their declaration order |
| EnhancedFetch.CountrySupportFirst | src/proxy_finder/core/enhanced_fetcher.py:87-92 | with a country, within equal priority the sources that support a country come first |
| EnhancedFetch.DeclaredSorted | src/proxy_finder/core/enhanced_fetcher.py:39-84 | the declared list is already in non-decreasing priority |
| EnhancedFetch.CountryThenPriority | src/proxy_finder/core/enhanced_fetcher.py:87-92 | the country sort followed by the priority sort gives back the declaration order |
| EnhancedFetch.OrderIsDeclarationOrder | src/proxy_finder/core/enhanced_fetcher.py:86-92 | on this table the country sort has no effect: with or without a country, the order is the declaration order |
| EnhancedFetch.MapOf | src/proxy_finder/core/enhanced_fetcher.py:23-34 | the dictionary's keys are the table's names, and each maps to a code paired with it in the table |
| EnhancedFetch.AvailableCountryCodes | src/proxy_finder/core/enhanced_fetcher.py:95-97 | every code the dictionary offers is two upper-case letters, and 'usa', 'uk' and 'greece' are among its names |
| EnhancedFetch.AnnotateAll | src/proxy_finder/core/enhanced_fetcher.py:121-127 | with a country set, each entry whose country is exactly 'unknown' (or absent) gets the guess; the rest are unchanged |
| EnhancedFetch.EnhancedFetcher.AnnotateOne | src/proxy_finder/core/enhanced_fetcher.py:121-127 | one entry gets the guess exactly when its country is 'unknown' (or absent); the cache gains its address exactly then |
| EnhancedFetch.EnhancedFetcher.AnnotateCountries | src/proxy_finder/core/enhanced_fetcher.py:121-127 | the annotation loop gives the annotation specification's list; the cache gains exactly the addresses of the unknown-country entries |
| EnhancedFetch.BoundWithoutHeuristicKeep | src/proxy_finder/core/base_fetcher.py:166-177 | when no entry takes the heuristic append, the limit bounds the output (one entry at least gets through) |
| EnhancedFetch.AnnotatedNotKeptByHeuristic | src/proxy_finder/core/enhanced_fetcher.py:121-130 | an annotated entry never takes the filter's heuristic append: its guess is already in place |
| EnhancedFetch.AnnotatedWithinLimit | src/proxy_finder/core/enhanced_fetcher.py:121-130 | when every country that reads as unknown is spelt exactly 'unknown', annotation restores the limit: no more than `max_proxies` come back |
| EnhancedFetch.FetchOutcome | src/proxy_finder/core/enhanced_fetcher.py:129-136 | a fetch fails only with `ProxyFetchError`, and a list it returns is never empty |
| EnhancedFetch.FetchOutcomeFacts | src/proxy_finder/core/enhanced_fetcher.py:129-136 | a fetch raises only `ProxyFetchError`; a returned list is never empty, holds well-formed addresses only, and with a country set every entry carries that country, compared upper-cased |
| EnhancedFetch.EmptyFetchRaises | src/proxy_finder/core/enhanced_fetcher.py:133-134 | an empty fetch always raises |
| EnhancedFetch.EnhancedFetcher.constructor | src/proxy_finder/core/enhanced_fetcher.py:15-19 | the fetcher holds the normalised country, an empty cache and the sources built for that country and bound |
| EnhancedFetch.EnhancedFetcher.FetchProxies | src/proxy_finder/core/enhanced_fetcher.py:99-136 | the result is the specification's: annotation, then the shared filter, and `ProxyFetchError` iff that is empty; the cache gains exactly the addresses looked up |
| EnhancedFetch.EnhancedFetcher.ParseGeonode | src/proxy_finder/core/enhanced_fetcher.py:138-164 | the records are those of the wanted items, keeping each item's own `last_checked` when present |
| Geonode.ParseItems | src/proxy_finder/core/enhanced_fetcher.py:143-160 | the item loop returns the specification's records, in item order |
| Geonode.GeonodeSnoc | src/proxy_finder/core/enhanced_fetcher.py:143-160 | one more item at the end of the list adds its record at the end exactly when the item is taken |
| Geonode.WantedItemsExact | src/proxy_finder/core/enhanced_fetcher.py:143-152 | the wanted items are an order-preserving subsequence of the input, each with ip and port and, with a country set, exactly that code; none is missing |
| Geonode.GeonodeOnePerItem | src/proxy_finder/core/fetcher.py:72-89 | there is one record per wanted item, in order |
| Geonode.GeonodeExact | src/proxy_finder/core/fetcher.py:72-89 | each record has address `ip:port`, the item's code and anonymity ('unknown' when absent), the source name, and the stamp the parser chooses |
| Geonode.GeonodeCountry | src/proxy_finder/core/fetcher.py:79-81 | with a country set, every record carries exactly that code (compared case-sensitively) |
| BasicFetch.BuildSources | src/proxy_finder/core/fetcher.py:20-48 | the three fixed sources in order, then GeoNode last exactly when a country is set |
| BasicFetch.FilteredEmptyNotRaised | src/proxy_finder/core/fetcher.py:60-65 | the emptiness test comes before the filter: a fetch whose entries are all dropped returns [] where the enhanced fetcher raises |
| BasicFetch.BasicOutcome | src/proxy_finder/core/fetcher.py:60-65 | a fetch raises `ProxyFetchError` iff nothing was fetched |
| BasicFetch.BasicOutcomeFacts | src/proxy_finder/core/fetcher.py:60-65 | a fetch raises iff nothing was fetched; what it returns holds well-formed addresses only, and with a country set every entry carries that country, compared upper-cased |
| BasicFetch.BasicFetcher.constructor | src/proxy_finder/core/fetcher.py:15-18 | the fetcher holds the normalised country, an empty cache, and GeoNode among its sources iff a country is set |
| BasicFetch.BasicFetcher.FetchProxies | src/proxy_finder/core/fetcher.py:50-65 | an empty fetch raises `ProxyFetchError`; otherwise the shared filter's result is returned, even when empty; the cache gains exactly the addresses the filter handed to the heuristic, none on a raise |
| BasicFetch.BasicFetcher.ParseGeonode | src/proxy_finder/core/fetcher.py:67-92 | the records are those of the wanted items, each stamped with the clock reading |
| CountryFetch.BuildSources | src/proxy_finder/core/country_fetcher.py:26-89 | the five main sources; the backup list is never added, since its guard is never true |
| CountryFetch.ValidateFrom | src/proxy_finder/core/country_fetcher.py:256-299 | validation returns no more records than candidates, and never drops a cached address |
| CountryFetch.ValidateCacheFacts | src/proxy_finder/core/country_fetcher.py:256-299 | the validation cache stays consistent (every record under its own address, validated, with speed and stamp) and gains exactly the addresses whose probe succeeds |
| CountryFetch.ValidateRecordFacts | src/proxy_finder/core/country_fetcher.py:256-299 | validation returns records marked validated with a speed, for input addresses in input order |
| CountryFetch.AllCachedReused | src/proxy_finder/core/country_fetcher.py:262-266 | when every address has a cached record under an hour old, each is answered from the cache and the cache is unchanged |
| CountryFetch.AllProbesFailDropped | src/proxy_finder/core/country_fetcher.py:294-297 | candidates with no recent cached record whose probe fails are dropped, and the cache is untouched |
| CountryFetch.ValidateStep | src/proxy_finder/core/country_fetcher.py:260-297 | one turn: a recent cached record is reused; otherwise a successful probe is recorded in the cache and appended, a failure dropped |
| CountryFetch.ValidateHit | src/proxy_finder/core/country_fetcher.py:262-266 | a candidate with a cached record under an hour old has that record appended, the cache unchanged, and the loop stays on the run |
| CountryFetch.ValidateDropped | src/proxy_finder/core/country_fetcher.py:294-297 | a candidate without a recent record whose probe fails is dropped, the cache unchanged, and the loop stays on the run |
| CountryFetch.ValidateProbed | src/proxy_finder/core/country_fetcher.py:268-292 | a candidate without a recent record whose probe succeeds is recorded, marked validated with its speed and the time, in the cache and appended |
| CountryFetch.ValidateDone | src/proxy_finder/core/country_fetcher.py:299 | when the list is exhausted the accumulated list and cache are the whole run |
| CountryFetch.MarkFree | src/proxy_finder/core/country_fetcher.py:211-215 | each FreeProxy entry gets speed 999.99, `validated` false and the clock reading, nothing else changed |
| CountryFetch.MarkUnvalidated | src/proxy_finder/core/country_fetcher.py:246-250 | each filtered entry keeps its speed or gets 999.99, and gets `validated` false and the clock reading |
| CountryFetch.CountryOutcome | src/proxy_finder/core/country_fetcher.py:91-254 | a fetch can only raise `ProxyFetchError`, and then leaves the validation cache as it was; it never drops a cached address |
| CountryFetch.CountryRaisesIff | src/proxy_finder/core/country_fetcher.py:199-203 | a fetch raises `ProxyFetchError` exactly when nothing was gathered, fallback included; the cache is then untouched |
| CountryFetch.FallbackOnlyWhenShort | src/proxy_finder/core/country_fetcher.py:140 | the GitHub fallback is consulted only when fewer than `max_proxies` entries were gathered |
| CountryFetch.FallbackKeepsTarget | src/proxy_finder/core/country_fetcher.py:179-186 | every entry the fallback keeps has the target country once upper-cased |
| CountryFetch.FallbackKeepsParsed | src/proxy_finder/core/country_fetcher.py:179-383 | the fallback keeps every entry of the fetcher's own text parser, since those are tagged with its (upper-case) country |
| CountryFetch.FallbackLooksUpNothing | src/proxy_finder/core/country_fetcher.py:177-186 | on lines from the fetcher's own parser, tagged with its upper-case code, the fallback never needs a guess, so it adds nothing to the geolocation cache |
| CountryFetch.LimitedShortcut | src/proxy_finder/core/country_fetcher.py:197-216 | for a limited country whose FreeProxy source produced entries, the first `max_proxies` of them come back unvalidated with speed 999.99, and nothing is validated |
| CountryFetch.GatheredHas | src/proxy_finder/core/country_fetcher.py:134-137 | one non-empty source makes what was gathered non-empty |
| CountryFetch.CountryOutcomeShape | src/proxy_finder/core/country_fetcher.py:206-254 | a successful fetch returns at most `max_proxies` entries (for a non-negative bound); either all are unvalidated with a speed, or all are validated records in non-decreasing speed |
| CountryFetch.LimitedWidening | src/proxy_finder/core/country_fetcher.py:232-237 | for a limited country with fewer than two filtered entries, validation gets every gathered entry of the country instead, when there is one |
| CountryFetch.CountryMatchesExact | src/proxy_finder/core/country_fetcher.py:235 | the matching entries are an order-preserving subsequence, all of the country, none missing |
| CountryFetch.CountryFetcher.constructor | src/proxy_finder/core/country_fetcher.py:17-24 | the fetcher holds the upper-cased code, the five main sources and empty caches |
| CountryFetch.CountryFetcher.ParseTextList | src/proxy_finder/core/country_fetcher.py:373-388 | the shared line parser's result, each entry tagged with the fetcher's country |
| CountryFetch.CountryFetcher.ValidateProxies | src/proxy_finder/core/country_fetcher.py:256-299 | the validated list and the new cache are the validation loop's, from the cache as it was |
| CountryFetch.CountryFetcher.GuessCountry | src/proxy_finder/core/country_fetcher.py:179-182 | an entry whose country is unknown takes the country its address suggests (through the cache, which then holds its address), any other is unchanged and the cache untouched |
| CountryFetch.CountryFetcher.KeepCountry | src/proxy_finder/core/country_fetcher.py:177-186 | unknown countries are guessed through the cache, and exactly the target's entries are kept; the cache gains exactly the unknown-country addresses |
| CountryFetch.CountryFetcher.KeepTurn | src/proxy_finder/core/country_fetcher.py:178-186 | one entry: its country is guessed if unknown, it is appended iff its country is the target's, and the cache gains its address iff it was unknown |
| CountryFetch.CountryFetcher.GithubFallback | src/proxy_finder/core/country_fetcher.py:161-194 | each GitHub list that answered with a non-blank text contributes its parsed, country-filtered entries, list by list; the cache gains exactly the addresses guessed on the way |
| CountryFetch.CountryFetcher.FallbackTurn | src/proxy_finder/core/country_fetcher.py:165-194 | one GitHub list adds its own entries after those of the lists before it, and its guessed addresses to the cache |
| CountryFetch.CountryFetcher.ListFallback | src/proxy_finder/core/country_fetcher.py:171-186 | one GitHub list contributes nothing when its text is missing or blank, otherwise its parsed entries whose (guessed) country is the target; the cache gains exactly the addresses it guessed |
| CountryFetch.CountryFetcher.MarkFreeProxies | src/proxy_finder/core/country_fetcher.py:211-215 | the marking loop gives the FreeProxy marking |
| CountryFetch.CountryFetcher.MarkUnvalidatedProxies | src/proxy_finder/core/country_fetcher.py:246-250 | the marking loop gives the unvalidated marking |
| CountryFetch.CountryFetcher.GatherAll | src/proxy_finder/core/country_fetcher.py:135-194 | the gathered list is the main sources' lists in order, followed by the GitHub fallback's entries exactly when fewer than `max_proxies` were found; the cache gains exactly the fallback's guessed addresses |
| CountryFetch.CountryFetcher.FetchProxies | src/proxy_finder/core/country_fetcher.py:91-254 | the result and the validation cache afterwards are the fetch specification's, from the cache as it was; the geolocation cache gains the fallback's guesses and, past the raise and the shortcut, the shared filter's |
| CountryFetch.CountryFetcher.FetchGathered | src/proxy_finder/core/country_fetcher.py:197-254 | once everything is gathered: the raise, the shortcut, the filter, the widening for limited countries and the validation are those of the fetch specification |
| CountryFetch.NewCountryFetcher | src/proxy_finder/core/country_fetcher.py:17-24 | a missing or empty code raises `ValueError`; otherwise the fetcher holds the code upper-cased, the five main sources and an empty cache |
| Rotation.NewManager | src/proxy_finder/core/rotation.py:31-34 | the country list is the given one when non-empty, else the single country as a one-element list, else none |
| Rotation.MultiModeOnlyForLists | src/proxy_finder/core/rotation.py:33-49 | a manager works per country exactly when more than one country was listed; a single country never does |
| Rotation.MatchingExact | src/proxy_finder/core/rotation.py:57-74 | the anonymity filter keeps, in order, exactly the entries of that anonymity |
| Rotation.FirstDetailsExact | src/proxy_finder/core/rotation.py:61-81 | the report is that of the earliest candidate the validator accepts; there is none exactly when it accepts none |
| Rotation.FailingCountrySkipped | src/proxy_finder/core/rotation.py:66-67 | a country whose fetch raises is passed over and the next is tried |
| Rotation.CountriesFirstExact | src/proxy_finder/core/rotation.py:49-67 | an attempt in multi-country mode yields what the earliest yielding country found, and nothing iff no country yields |
| Rotation.GetProxyFailsIff | src/proxy_finder/core/rotation.py:46-88 | `get_proxy` raises, and then `ProxyFinderError`, exactly when no attempt below `max_retries` yields |
| Rotation.GetProxyFirstYield | src/proxy_finder/core/rotation.py:46-81 | what `get_proxy` returns is what the first yielding attempt found |
| Rotation.NoRetriesRaises | src/proxy_finder/core/rotation.py:46-88 | with no retries allowed, `get_proxy` raises at once |
| Rotation.FirstValid | src/proxy_finder/core/rotation.py:77-81 | the candidate loop returns the first accepted candidate's report |
| Rotation.Attempt | src/proxy_finder/core/rotation.py:47-83 | one attempt yields the specification's answer, per country or from the manager's own fetcher |
| Rotation.CountryAttempt | src/proxy_finder/core/rotation.py:51-63 | one fetch yields nothing when it raises, otherwise the first candidate of the wanted anonymity that the validator reports |
| Rotation.GetProxy | src/proxy_finder/core/rotation.py:36-88 | the retry loop returns the specification's result |
| Rotation.FirstFindFailsIff | src/proxy_finder/core/rotation.py:46-88 | the retry loop over any attempts ends in `ProxyFinderError` exactly when no attempt below the bound yields |
| Rotation.FirstFindYields | src/proxy_finder/core/rotation.py:46-81 | the retry loop over any attempts returns what the first yielding attempt found |
| Rotation.UnseenExact | src/proxy_finder/core/rotation.py:136 | a round is handed, in order, exactly the fetched entries whose address was not seen before |
| Rotation.RoundFacts | src/proxy_finder/core/rotation.py:141-152 | a round keeps what was found and stops at `num_proxies`; it only adds to the seen set, marks its first entry, and marks them all unless it stopped early |
| Rotation.RotateFrom | src/proxy_finder/core/rotation.py:116-159 | the search only adds to what was found and the attempts counter only grows |
| Rotation.RotateBounded | src/proxy_finder/core/rotation.py:116-152 | the search keeps what it has found and never collects more than `num_proxies` |
| Rotation.RotateRounds | src/proxy_finder/core/rotation.py:116-159 | the attempts counter only grows and never passes `max_attempts * num_proxies`, one per round |
| Rotation.RotateOutcomeFacts | src/proxy_finder/core/rotation.py:161-169 | `rotate_proxies` raises `ProxyFinderError` iff nothing was found; otherwise it returns everything found, in non-decreasing speed, no more than `num_proxies` |
| Rotation.ZeroRequestRaises | src/proxy_finder/core/rotation.py:116-164 | asking for no proxies raises, since the loop never runs |
| Rotation.DuplicateInRoundFoundTwice | src/proxy_finder/core/rotation.py:136-148 | an address listed twice in one round's fetch is validated twice and found twice |
| Rotation.RunRound | src/proxy_finder/core/rotation.py:141-152 | the round loop gives the specification's found list and seen set |
| Rotation.PoolCountries | src/proxy_finder/core/rotation.py:121-130 | the per-country fetches are concatenated in order, and a raising country adds nothing |
| Rotation.FetchRound | src/proxy_finder/core/rotation.py:118-133 | a round fetches per country in multi-country mode, otherwise from the manager's own fetcher, which may raise |
| Rotation.RotateProxies | src/proxy_finder/core/rotation.py:90-169 | the round loop returns the specification's result |

## Left out

- Network I/O is not modelled: `requests.get`, socket connects, `_fetch_from_source`, and the diagnostics module. Their outcomes are inputs.
- `_fetch_with_concurrent` runs a thread pool. Its outcome, the per-source lists concatenated with failed sources adding nothing, is an input to the fetchers' post-processing.
- Markup and JSON decoding are left out because they belong to third-party libraries. This covers `_parse_freeproxy`, `_parse_proxynova`, `_parse_hidemyname`, `_parse_gatherproxy`, `_parse_free_proxy_list`, `_parse_openproxy`, `_parse_proxyscan`, and the `json.loads` step of the GeoNode parsers. The GeoNode filter after decoding is modelled.
- The country fetcher's own `_parse_geonode` is left out, as are its main sources' parsers. Each main source's parsed list is an input to `CountryFetch.CountryFetcher.FetchProxies`.
- The CLI, the configuration file, logging, and the `seen` and `country_count` counters are not modelled, because they only feed log messages.
- Timeouts, `min(20, timeout)`, and the constructors' `timeout` arguments are not modelled, because they only bound the network calls.
- Clock readings and time formats (`time.time`, `strftime`, `strptime`, `mktime`) are integer seconds. One reading stands for a whole call. Latency is a `real`.
- Validation.Round2: rounding is stated as accuracy to half a hundredth, because Python's float `round` rounds half to even on binary values and is not modelled exactly.
- The regular expressions are read with ASCII digits only. Python's `$` also matches before a final newline and `\d` matches other Unicode digits; neither is modelled. Stripped lines cannot end in a newline.
- PyText.ParseInt: `int` also accepts non-ASCII decimal digits (Arabic-Indic, full-width and the like); only ASCII digits are modelled.
- PyText.Upper: upper-casing covers ASCII letters only, because the country codes and tags involved are ASCII.
- PyText.SplitLines: every line-break character ends a line. A "\r\n" pair and a trailing break add empty lines here, which every caller skips.
- Aliasing is not modelled. When one dict sits in two lists, an in-place update shows in both in the source; in the model only the returned list carries it. This covers the country overwritten by the filter and by the fallback, and the speed and flags set by the country fetcher's marking loops.
- CountryFetch.ValidateFrom: the probe is a function of the address, so within one call an address listed twice gets the same probe outcome both times. In the source a failed probe caches nothing and the repeat is probed afresh, and may then succeed with another latency. ValidateCacheFacts' "gains exactly the addresses whose probe succeeds" relies on this.
- A record without a `proxy` key would raise `KeyError` in `_get_proxy_country` callers and `_validate_proxies`. This is not modelled: the key is always present, with "" for an empty address.
- `CountryFetch.CacheValid` requires every cached record to carry its stamp, which is always true of records the loop stores. A cached record without `timestamp`, which would raise, is not modelled.
- JSON `null` values and non-string fields in records are not modelled; fields are strings, or absent.
- GeoNode items' `ip` and `port` are strings, with "" for missing or falsy, so a numeric port 0 is not distinguished.
- Decoding a probe's response body is not modelled: `response.json()` and its 'origin' or 'query' field, or a short stripped text. The address it yields is the input `reportedIp` of each response, from which the details record's `ip` is chosen as the code does.
- Validation.GetProxyDetails: exceptions other than the port's `ValueError` and `OverflowError`, the socket connect's and the probes' are not modelled.
- The validator in `ProxyManager` is a fixed function of the candidate. The fetch in `ProxyManager` is a function of the attempt and the requested country, so the same country asked twice in one attempt gets the same answer.
- `ProxyManager.__init__` builds a fetcher, a filter and a validator whose only settings are the country and the timeout. They are represented by the fetch and validator inputs.
- The storage cache directory's creation (`_ensure_cache_dir`) is not modelled, because its failures are swallowed.
