/**
 * `ProxyStorage`: a JSON cache file of proxy records. Saving stamps every
 * record with the current time and overwrites the file; loading keeps the
 * records whose stamp is recent enough. The file is a field holding what
 * the cache file contains; the clock is an integer number of seconds.
 */
module Storage {
  import opened Seqs
  import opened Records

  /** What the cache file holds. */
  datatype CacheFile =
    | Absent                        // no file
    | Unreadable                    // cannot be opened, or is not a JSON list of records
    | Stored(records: seq<Entry>)

  /** How writing the file went. */
  datatype WriteOutcome =
    | Written                       // the list was dumped whole
    | OpenFailed                    // the file could not be opened: it is untouched
    | DumpFailed                    // the dump broke off: what was written is not valid JSON

  /** Every record with `cached_at` set to the clock reading, nothing else changed. */
  function Stamp(proxies: seq<Entry>, now: int): (r: seq<Entry>)
    ensures |r| == |proxies|
    ensures forall i :: 0 <= i < |proxies| ==> r[i] == proxies[i].(cachedAt := StampedAt(now))
  {
    seq(|proxies|, i requires 0 <= i < |proxies| => proxies[i].(cachedAt := StampedAt(now)))
  }

  /** The record is kept: a readable stamp no more than `maxAgeHours` hours old, the boundary included. */
  predicate Fresh(e: Entry, maxAgeHours: int, now: int) {
    e.cachedAt.StampedAt? && now - e.cachedAt.seconds <= maxAgeHours * 3600
  }

  /** The kept records, in stored order. */
  function FreshRecords(records: seq<Entry>, maxAgeHours: int, now: int): seq<Entry> {
    if records == [] then []
    else (if Fresh(records[0], maxAgeHours, now) then [records[0]] else [])
         + FreshRecords(records[1..], maxAgeHours, now)
  }

  /** What `load_proxies` returns for a given file. */
  function Loaded(file: CacheFile, maxAgeHours: int, now: int): seq<Entry> {
    match file
    case Stored(records) => FreshRecords(records, maxAgeHours, now)
    case _ => []
  }

  class ProxyStorage {
    /** The contents of `proxy_cache.json` in the cache directory. */
    var file: CacheFile

    /** The storage over a cache directory whose file is as given. */
    constructor (existing: CacheFile)
      ensures file == existing
    {
      file := existing;
    }

    /**
     * `save_proxies`: the caller's records are stamped in place (returned as
     * `stamped`), then the file is overwritten with exactly that list. A
     * failure is swallowed: the file is then left alone or left unreadable.
     */
    method SaveProxies(proxies: seq<Entry>, now: int, outcome: WriteOutcome) returns (stamped: seq<Entry>)
      modifies this
      ensures stamped == Stamp(proxies, now)
      ensures file == match outcome
        case Written => Stored(stamped)
        case OpenFailed => old(file)
        case DumpFailed => Unreadable
    {
      stamped := proxies;
      var i := 0;
      while i < |stamped|
        invariant 0 <= i <= |stamped| == |proxies|
        invariant forall j :: 0 <= j < i ==> stamped[j] == proxies[j].(cachedAt := StampedAt(now))
        invariant forall j :: i <= j < |stamped| ==> stamped[j] == proxies[j]
      {
        stamped := stamped[i := stamped[i].(cachedAt := StampedAt(now))];
        i := i + 1;
      }
      match outcome
      case Written => file := Stored(stamped);
      case OpenFailed =>
      case DumpFailed => file := Unreadable;
    }

    /** `load_proxies`: the records of the file that are recent enough, in order; `[]` without a readable file. */
    method LoadProxies(maxAgeHours: int, now: int) returns (proxies: seq<Entry>)
      ensures proxies == Loaded(file, maxAgeHours, now)
    {
      proxies := [];
      if !file.Stored? {
        return;
      }
      var cached := file.records;
      var maxAgeSeconds := maxAgeHours * 3600;
      var i := 0;
      while i < |cached|
        invariant 0 <= i <= |cached|
        invariant proxies + FreshRecords(cached[i..], maxAgeHours, now) == FreshRecords(cached, maxAgeHours, now)
      {
        assert cached[i..][0] == cached[i] && cached[i..][1..] == cached[i + 1..];
        var proxy := cached[i];
        i := i + 1;
        match proxy.cachedAt
        case NoStamp => continue;
        case Garbled => continue;
        case StampedAt(cacheTime) =>
          var age := now - cacheTime;
          if age <= maxAgeSeconds {
            proxies := proxies + [proxy];
          }
      }
      assert cached[|cached|..] == [];
    }
  }

  /**
   * The load output is an order-preserving subsequence of the stored list;
   * every record in it is fresh, and every fresh stored record is in it.
   * Records without a stamp, or with one that does not parse, are skipped.
   */
  lemma {:induction false} FreshRecordsExact(records: seq<Entry>, maxAgeHours: int, now: int)
    ensures IsSubseq(FreshRecords(records, maxAgeHours, now), records)
    ensures forall e :: e in FreshRecords(records, maxAgeHours, now) ==> Fresh(e, maxAgeHours, now)
    ensures forall i :: 0 <= i < |records| && Fresh(records[i], maxAgeHours, now) ==>
              records[i] in FreshRecords(records, maxAgeHours, now)
  {
    if records != [] {
      FreshRecordsExact(records[1..], maxAgeHours, now);
      var r := FreshRecords(records, maxAgeHours, now);
      var r' := FreshRecords(records[1..], maxAgeHours, now);
      if Fresh(records[0], maxAgeHours, now) {
        assert r == [records[0]] + r' && r[1..] == r';
      } else {
        assert r == r';
        if r != [] {
          assert IsSubseq(r, records[1..]);
        }
      }
      forall i | 0 < i < |records| && Fresh(records[i], maxAgeHours, now)
        ensures records[i] in r
      {
        assert records[1..][i - 1] == records[i];
      }
    }
  }

  /** Without a readable file the load returns nothing. */
  lemma LoadWithoutFile(file: CacheFile, maxAgeHours: int, now: int)
    requires !file.Stored?
    ensures Loaded(file, maxAgeHours, now) == []
  {
  }

  /** When every stored record is fresh, the load returns the stored list as it is. */
  lemma {:induction false} AllFreshLoaded(records: seq<Entry>, maxAgeHours: int, now: int)
    requires forall i :: 0 <= i < |records| ==> Fresh(records[i], maxAgeHours, now)
    ensures FreshRecords(records, maxAgeHours, now) == records
  {
    if records != [] {
      AllFreshLoaded(records[1..], maxAgeHours, now);
      assert [records[0]] + records[1..] == records;
    }
  }

  /**
   * Round trip: a list saved at `saved` and loaded at `now`, within the
   * age bound (its end included), comes back whole, stamped, in order.
   */
  lemma SaveLoadRoundTrip(proxies: seq<Entry>, saved: int, maxAgeHours: int, now: int)
    requires now - saved <= maxAgeHours * 3600
    ensures Loaded(Stored(Stamp(proxies, saved)), maxAgeHours, now) == Stamp(proxies, saved)
  {
    AllFreshLoaded(Stamp(proxies, saved), maxAgeHours, now);
  }

  /** One second past the bound, the same list comes back empty. */
  lemma {:induction false} SaveLoadExpired(proxies: seq<Entry>, saved: int, maxAgeHours: int, now: int)
    requires now - saved > maxAgeHours * 3600
    ensures Loaded(Stored(Stamp(proxies, saved)), maxAgeHours, now) == []
  {
    var s := Stamp(proxies, saved);
    FreshRecordsExact(s, maxAgeHours, now);
    if FreshRecords(s, maxAgeHours, now) != [] {
      var e := FreshRecords(s, maxAgeHours, now)[0];
      assert e in FreshRecords(s, maxAgeHours, now);
      SubseqLength(FreshRecords(s, maxAgeHours, now), s);
      assert false;
    }
  }

  /** Saving, then loading within the bound, through the storage object itself. */
  method SaveThenLoad(st: ProxyStorage, proxies: seq<Entry>, saved: int, maxAgeHours: int, now: int)
    returns (stamped: seq<Entry>, loaded: seq<Entry>)
    requires now - saved <= maxAgeHours * 3600
    modifies st
    ensures loaded == stamped == Stamp(proxies, saved)
  {
    stamped := st.SaveProxies(proxies, saved, Written);
    loaded := st.LoadProxies(maxAgeHours, now);
    SaveLoadRoundTrip(proxies, saved, maxAgeHours, now);
  }
}
