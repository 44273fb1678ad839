/**
 * `ProxyManager`: retrieves one working proxy (`get_proxy`) or several
 * (`rotate_proxies`) by fetching candidates and asking the validator for
 * each one's details. The manager's settings never change after
 * construction, so it is a value. What the network does is given:
 * `raw(attempt, country)` is the list the sources of a fetcher for
 * `country` gathered in that attempt (the fetch outcome is then what the
 * enhanced fetcher makes of it), and `details(e)` is what the validator
 * reports for a candidate.
 */
module Rotation {
  import opened Wrappers
  import opened Seqs
  import opened Records
  import opened BaseFetch
  import EnhancedFetch

  /** The network's answers to the fetches: by attempt and requested country. */
  type FetchInput = (nat, Option<string>) -> seq<Entry>

  /** `fetch_proxies()`'s default `max_proxies`. */
  const FetchLimit: int := 100

  /** The settings `__init__` stores. */
  datatype Manager = Manager(
    maxRetries: int,
    country: Option<string>,
    countries: Option<seq<string>>,
    anonymity: Option<string>)

  /** A string argument is truthy: given and not empty. */
  predicate Given(s: Option<string>) {
    s.Some? && s.value != ""
  }

  /** A list argument is truthy: given and not empty. */
  predicate GivenList(s: Option<seq<string>>) {
    s.Some? && s.value != []
  }

  /** `countries and len(countries) > 1`: one fetcher per country. */
  predicate MultiMode(countries: Option<seq<string>>) {
    countries.Some? && |countries.value| > 1
  }

  /** `__init__`: the country list defaults to the single country, or to none. */
  function NewManager(maxRetries: int, country: Option<string>, countries: Option<seq<string>>,
                      anonymity: Option<string>): (m: Manager)
    ensures m.maxRetries == maxRetries && m.country == country && m.anonymity == anonymity
    ensures GivenList(countries) ==> m.countries == countries
    ensures !GivenList(countries) && Given(country) ==> m.countries == Some([country.value])
    ensures !GivenList(countries) && !Given(country) ==> m.countries.None?
  {
    var list := if GivenList(countries) then countries else if Given(country) then Some([country.value]) else None;
    Manager(maxRetries, country, list, anonymity)
  }

  /** A manager is in multi-country mode exactly when more than one country was listed; one country alone never is. */
  lemma MultiModeOnlyForLists(maxRetries: int, country: Option<string>, countries: Option<seq<string>>,
                              anonymity: Option<string>)
    ensures MultiMode(NewManager(maxRetries, country, countries, anonymity).countries)
        <==> GivenList(countries) && |countries.value| > 1
  {
  }

  /** What a fetch for `country` returns or raises in a given attempt. */
  function Fetched(raw: FetchInput, attempt: nat, country: Option<string>): Result<seq<Entry>, Error> {
    EnhancedFetch.FetchOutcome(raw(attempt, country), NormalizeCountry(country), FetchLimit)
  }

  // ---------------------------------------------------------------------
  // `get_proxy`
  // ---------------------------------------------------------------------

  /** The entries whose anonymity is exactly `a`. */
  function Matching(ps: seq<Entry>, a: string): seq<Entry> {
    if ps == [] then []
    else (if ps[0].anonymity == Some(a) then [ps[0]] else []) + Matching(ps[1..], a)
  }

  /** The candidates: the fetched list, filtered by anonymity when one is set. */
  function Candidates(ps: seq<Entry>, anonymity: Option<string>): seq<Entry> {
    if Given(anonymity) then Matching(ps, anonymity.value) else ps
  }

  /** The first candidate's details that the validator reports, if any. */
  function FirstDetails(ps: seq<Entry>, details: Entry -> Option<Details>): Option<Details> {
    if ps == [] then None
    else if details(ps[0]).Some? then details(ps[0])
    else FirstDetails(ps[1..], details)
  }

  /** What one country's fetch yields: nothing when it raises. */
  function CountryFinds(m: Manager, raw: FetchInput, details: Entry -> Option<Details>, attempt: nat,
                        country: Option<string>): Option<Details> {
    match Fetched(raw, attempt, country)
    case Failure(_) => None
    case Success(ps) => FirstDetails(Candidates(ps, m.anonymity), details)
  }

  /** Multi-country mode: the countries in turn, the first that yields. */
  function CountriesFirst(m: Manager, raw: FetchInput, details: Entry -> Option<Details>, attempt: nat,
                          countries: seq<string>): Option<Details> {
    if countries == [] then None
    else
      var here := CountryFinds(m, raw, details, attempt, Some(countries[0]));
      if here.Some? then here else CountriesFirst(m, raw, details, attempt, countries[1..])
  }

  /** What one attempt yields. */
  function AttemptFinds(m: Manager, raw: FetchInput, details: Entry -> Option<Details>, attempt: nat): Option<Details> {
    if MultiMode(m.countries) then CountriesFirst(m, raw, details, attempt, m.countries.value)
    else CountryFinds(m, raw, details, attempt, m.country)
  }

  /** What each attempt yields, by attempt number. */
  type Attempts = nat -> Option<Details>

  /** The attempts of `get_proxy` for a manager. */
  function AttemptsOf(m: Manager, raw: FetchInput, details: Entry -> Option<Details>): Attempts {
    (attempt: nat) => AttemptFinds(m, raw, details, attempt)
  }

  /** The attempts from `attempt` below `retries`: the first that yields, or `ProxyFinderError`. */
  function FirstFind(finds: Attempts, retries: int, attempt: nat): Result<Details, Error>
    decreases retries - attempt
  {
    if attempt >= retries then Failure(ProxyFinderError)
    else match finds(attempt)
      case Some(d) => Success(d)
      case None => FirstFind(finds, retries, attempt + 1)
  }

  /** The attempts of `get_proxy` from `attempt` on, with `maxRetries` as the bound. */
  function GetProxyFrom(m: Manager, raw: FetchInput, details: Entry -> Option<Details>, attempt: nat): Result<Details, Error> {
    FirstFind(AttemptsOf(m, raw, details), m.maxRetries, attempt)
  }

  /** The anonymity filter keeps, in order, exactly the entries of that anonymity. */
  lemma {:induction false} MatchingExact(ps: seq<Entry>, a: string)
    ensures IsSubseq(Matching(ps, a), ps)
    ensures forall e :: e in Matching(ps, a) ==> e.anonymity == Some(a)
    ensures forall i :: 0 <= i < |ps| && ps[i].anonymity == Some(a) ==> ps[i] in Matching(ps, a)
  {
    if ps != [] {
      MatchingExact(ps[1..], a);
      var r := Matching(ps, a);
      var r' := Matching(ps[1..], a);
      if ps[0].anonymity == Some(a) {
        assert r == [ps[0]] + r' && r[1..] == r';
      } else {
        assert r == r';
        if r != [] {
          assert IsSubseq(r, ps[1..]);
        }
      }
      forall i | 0 < i < |ps| && ps[i].anonymity == Some(a) ensures ps[i] in r {
        assert ps[1..][i - 1] == ps[i];
      }
    }
  }

  /**
   * The first report is that of the earliest candidate the validator
   * accepts; there is none exactly when it accepts no candidate.
   */
  lemma {:induction false} FirstDetailsExact(ps: seq<Entry>, details: Entry -> Option<Details>)
    ensures FirstDetails(ps, details).None? <==> forall i :: 0 <= i < |ps| ==> details(ps[i]).None?
    ensures FirstDetails(ps, details).Some? ==>
      exists i :: 0 <= i < |ps| && details(ps[i]) == FirstDetails(ps, details)
                  && forall j :: 0 <= j < i ==> details(ps[j]).None?
  {
    if ps != [] {
      FirstDetailsExact(ps[1..], details);
      if details(ps[0]).None? {
        forall i | 0 < i < |ps| ensures details(ps[i]) == details(ps[1..][i - 1]) {
        }
        if FirstDetails(ps, details).Some? {
          var i :| 0 <= i < |ps[1..]| && details(ps[1..][i]) == FirstDetails(ps[1..], details)
                   && forall j :: 0 <= j < i ==> details(ps[1..][j]).None?;
          assert details(ps[i + 1]) == FirstDetails(ps, details);
          forall j | 0 <= j < i + 1 ensures details(ps[j]).None? {
            if j > 0 {
              assert ps[j] == ps[1..][j - 1];
            }
          }
        }
      }
    }
  }

  /** In multi-country mode a country whose fetch raises is passed over. */
  lemma FailingCountrySkipped(m: Manager, raw: FetchInput, details: Entry -> Option<Details>, attempt: nat,
                              countries: seq<string>)
    requires countries != [] && Fetched(raw, attempt, Some(countries[0])).Failure?
    ensures CountriesFirst(m, raw, details, attempt, countries) == CountriesFirst(m, raw, details, attempt, countries[1..])
  {
  }

  /**
   * In multi-country mode an attempt yields what the earliest yielding
   * country found, and nothing exactly when no country yields.
   */
  lemma {:induction false} CountriesFirstExact(m: Manager, raw: FetchInput, details: Entry -> Option<Details>, attempt: nat,
                                               countries: seq<string>)
    ensures var r := CountriesFirst(m, raw, details, attempt, countries);
      && (r.None? <==> forall i :: 0 <= i < |countries| ==> CountryFinds(m, raw, details, attempt, Some(countries[i])).None?)
      && (r.Some? ==> exists i :: 0 <= i < |countries| && CountryFinds(m, raw, details, attempt, Some(countries[i])) == r
                                 && forall j :: 0 <= j < i ==> CountryFinds(m, raw, details, attempt, Some(countries[j])).None?)
  {
    if countries != [] {
      var rest := countries[1..];
      CountriesFirstExact(m, raw, details, attempt, rest);
      if CountryFinds(m, raw, details, attempt, Some(countries[0])).None? {
        forall i | 0 < i < |countries| ensures countries[i] == rest[i - 1] {
        }
        var r := CountriesFirst(m, raw, details, attempt, countries);
        if r.Some? {
          var i :| 0 <= i < |rest| && CountryFinds(m, raw, details, attempt, Some(rest[i])) == r
                   && forall j :: 0 <= j < i ==> CountryFinds(m, raw, details, attempt, Some(rest[j])).None?;
          assert CountryFinds(m, raw, details, attempt, Some(countries[i + 1])) == r;
          forall j | 0 <= j < i + 1 ensures CountryFinds(m, raw, details, attempt, Some(countries[j])).None? {
            if j > 0 {
              assert countries[j] == rest[j - 1];
            }
          }
        }
      }
    }
  }

  /** `get_proxy` raises, and then `ProxyFinderError`, exactly when no attempt yields. */
  lemma GetProxyFailsIff(m: Manager, raw: FetchInput, details: Entry -> Option<Details>, attempt: nat)
    ensures var r := GetProxyFrom(m, raw, details, attempt);
      && (r.Failure? <==> forall a: nat :: attempt <= a < m.maxRetries ==> AttemptFinds(m, raw, details, a).None?)
      && (r.Failure? ==> r.error == ProxyFinderError)
  {
    var finds := AttemptsOf(m, raw, details);
    FirstFindFailsIff(finds, m.maxRetries, attempt);
    assert forall a: nat :: finds(a) == AttemptFinds(m, raw, details, a);
  }

  /** What `get_proxy` returns is what the first yielding attempt found. */
  lemma GetProxyFirstYield(m: Manager, raw: FetchInput, details: Entry -> Option<Details>, attempt: nat)
    ensures var r := GetProxyFrom(m, raw, details, attempt);
      r.Success? ==> exists a: nat :: attempt <= a < m.maxRetries && AttemptFinds(m, raw, details, a) == Some(r.value)
                                     && forall b: nat :: attempt <= b < a ==> AttemptFinds(m, raw, details, b).None?
  {
    var finds := AttemptsOf(m, raw, details);
    FirstFindYields(finds, m.maxRetries, attempt);
    assert forall a: nat :: finds(a) == AttemptFinds(m, raw, details, a);
  }

  lemma {:induction false} FirstFindFailsIff(finds: Attempts, retries: int, attempt: nat)
    ensures var r := FirstFind(finds, retries, attempt);
      && (r.Failure? <==> forall a: nat :: attempt <= a < retries ==> finds(a).None?)
      && (r.Failure? ==> r.error == ProxyFinderError)
    decreases retries - attempt
  {
    if attempt < retries && finds(attempt).None? {
      FirstFindFailsIff(finds, retries, attempt + 1);
    }
  }

  lemma {:induction false} FirstFindYields(finds: Attempts, retries: int, attempt: nat)
    ensures var r := FirstFind(finds, retries, attempt);
      r.Success? ==> exists a: nat :: attempt <= a < retries && finds(a) == Some(r.value)
                                     && forall b: nat :: attempt <= b < a ==> finds(b).None?
    decreases retries - attempt
  {
    if attempt < retries && finds(attempt).None? {
      FirstFindYields(finds, retries, attempt + 1);
      var r := FirstFind(finds, retries, attempt);
      if r.Success? {
        var a: nat :| attempt + 1 <= a < retries && finds(a) == Some(r.value)
                      && forall b: nat :: attempt + 1 <= b < a ==> finds(b).None?;
        assert forall b: nat :: attempt <= b < a ==> finds(b).None?;
      }
    }
  }

  /** With no retries allowed, `get_proxy` raises at once. */
  lemma NoRetriesRaises(m: Manager, raw: FetchInput, details: Entry -> Option<Details>)
    requires m.maxRetries <= 0
    ensures GetProxyFrom(m, raw, details, 0) == Failure(ProxyFinderError)
  {
  }

  /** The candidate loop of one fetched list. */
  method FirstValid(candidates: seq<Entry>, details: Entry -> Option<Details>) returns (found: Option<Details>)
    ensures found == FirstDetails(candidates, details)
  {
    var i := 0;
    while i < |candidates|
      invariant 0 <= i <= |candidates|
      invariant FirstDetails(candidates[i..], details) == FirstDetails(candidates, details)
    {
      assert candidates[i..][0] == candidates[i] && candidates[i..][1..] == candidates[i + 1..];
      var proxyDetails := details(candidates[i]);
      if proxyDetails.Some? {
        return proxyDetails;
      }
      i := i + 1;
    }
    return None;
  }

  /** One attempt of `get_proxy`: per country in multi-country mode, otherwise the manager's own fetcher. */
  method Attempt(m: Manager, raw: FetchInput, details: Entry -> Option<Details>, attempt: nat) returns (found: Option<Details>)
    ensures found == AttemptFinds(m, raw, details, attempt)
  {
    if MultiMode(m.countries) {
      var countries := m.countries.value;
      var j := 0;
      while j < |countries|
        invariant 0 <= j <= |countries|
        invariant CountriesFirst(m, raw, details, attempt, countries[j..]) == CountriesFirst(m, raw, details, attempt, countries)
      {
        assert countries[j..][0] == countries[j] && countries[j..][1..] == countries[j + 1..];
        found := CountryAttempt(m, raw, details, attempt, Some(countries[j]));
        if found.Some? {
          return;
        }
        j := j + 1;
      }
      return None;
    } else {
      found := CountryAttempt(m, raw, details, attempt, m.country);
    }
  }

  /** One fetch of one attempt: nothing when the fetch raises, else the first candidate the validator reports. */
  method CountryAttempt(m: Manager, raw: FetchInput, details: Entry -> Option<Details>, attempt: nat,
                        country: Option<string>) returns (found: Option<Details>)
    ensures found == CountryFinds(m, raw, details, attempt, country)
  {
    var fetched := Fetched(raw, attempt, country);
    if fetched.Failure? {
      return None;
    }
    found := FirstValid(Candidates(fetched.value, m.anonymity), details);
  }

  /** `get_proxy`: up to `maxRetries` attempts, then `ProxyFinderError`. */
  method GetProxy(m: Manager, raw: FetchInput, details: Entry -> Option<Details>) returns (r: Result<Details, Error>)
    ensures r == GetProxyFrom(m, raw, details, 0)
  {
    var attempt: nat := 0;
    ghost var finds := AttemptsOf(m, raw, details);
    while attempt < m.maxRetries
      invariant FirstFind(finds, m.maxRetries, attempt) == FirstFind(finds, m.maxRetries, 0)
      decreases m.maxRetries - attempt
    {
      var found := Attempt(m, raw, details, attempt);
      assert found == finds(attempt);
      if found.Some? {
        return Success(found.value);
      }
      attempt := attempt + 1;
    }
    return Failure(ProxyFinderError);
  }

  // ---------------------------------------------------------------------
  // `rotate_proxies`
  // ---------------------------------------------------------------------

  /** `lambda x: x.get('speed', float('inf'))` on reported details. */
  function DetailsSpeed(d: Details): SortKey {
    Finite(d.speed)
  }

  /** The fetched entries whose address has not been seen yet, in order. */
  function Unseen(ps: seq<Entry>, seen: set<string>): seq<Entry> {
    if ps == [] then []
    else (if ps[0].proxy !in seen then [ps[0]] else []) + Unseen(ps[1..], seen)
  }

  /** Multi-country mode: the countries' fetched lists concatenated; a country whose fetch raises adds nothing. */
  function Pooled(countries: seq<string>, raw: FetchInput, attempt: nat): seq<Entry> {
    if countries == [] then []
    else
      var k := |countries| - 1;
      var here := Fetched(raw, attempt, Some(countries[k]));
      Pooled(countries[..k], raw, attempt) + (if here.Success? then here.value else [])
  }

  /** What a round fetches: per country in multi-country mode (never raising), otherwise the manager's own fetcher. */
  function RoundProxies(targets: Option<seq<string>>, country: Option<string>, raw: FetchInput, attempt: nat)
    : Result<seq<Entry>, Error>
  {
    if MultiMode(targets) then Success(Pooled(targets.value, raw, attempt))
    else Fetched(raw, attempt, country)
  }

  /** What each round fetches, by attempt number. */
  type Rounds = nat -> Result<seq<Entry>, Error>

  /** The rounds of a search over `targets`, or over the manager's own country. */
  function RoundsOf(targets: Option<seq<string>>, country: Option<string>, raw: FetchInput): Rounds {
    (attempt: nat) => RoundProxies(targets, country, raw, attempt)
  }

  /** The found list and the seen addresses after a round's loop. */
  datatype RoundEnd = RoundEnd(valid: seq<Details>, seen: set<string>)

  /** A round's loop over the new entries: each is marked seen and validated; the round stops once `num` are found. */
  function RoundFrom(ps: seq<Entry>, details: Entry -> Option<Details>, num: int,
                     valid: seq<Details>, seen: set<string>): RoundEnd
  {
    if ps == [] then RoundEnd(valid, seen)
    else
      var seen' := seen + {ps[0].proxy};
      match details(ps[0])
      case None => RoundFrom(ps[1..], details, num, valid, seen')
      case Some(d) =>
        if |valid| + 1 >= num then RoundEnd(valid + [d], seen')
        else RoundFrom(ps[1..], details, num, valid + [d], seen')
  }

  /** The found list and the attempts counter when the search ends. */
  datatype SearchEnd = SearchEnd(valid: seq<Details>, attempts: nat)

  /**
   * The rounds from a given state: while fewer than `num` are found and
   * fewer than `budget` rounds have passed; every round, a raising fetch
   * included, costs one attempt, and a round with nothing new ends the
   * search.
   */
  function RotateFrom(rounds: Rounds, details: Entry -> Option<Details>, num: int, budget: int,
                      valid: seq<Details>, attempts: nat, seen: set<string>): (r: SearchEnd)
    ensures valid <= r.valid && attempts <= r.attempts
    decreases budget - attempts
  {
    if |valid| < num && attempts < budget then
      match rounds(attempts)
      case Failure(_) => RotateFrom(rounds, details, num, budget, valid, attempts + 1, seen)
      case Success(all) =>
        var unseen := Unseen(all, seen);
        if unseen == [] then SearchEnd(valid, attempts)
        else
          var r := RoundFrom(unseen, details, num, valid, seen);
          RoundFacts(unseen, details, num, valid, seen);
          RotateFrom(rounds, details, num, budget, r.valid, attempts + 1, r.seen)
    else SearchEnd(valid, attempts)
  }

  /** `countries or self.countries`. */
  function Targets(m: Manager, countries: Option<seq<string>>): Option<seq<string>> {
    if GivenList(countries) then countries else m.countries
  }

  /** What `rotate_proxies` returns or raises. */
  function RotateOutcome(m: Manager, num: int, maxAttempts: int, countries: Option<seq<string>>,
                         raw: FetchInput, details: Entry -> Option<Details>): Result<seq<Details>, Error>
  {
    var valid := RotateFrom(RoundsOf(Targets(m, countries), m.country, raw), details, num, maxAttempts * num, [], 0, {}).valid;
    if valid == [] then Failure(ProxyFinderError) else Success(Prefix(SortBy(valid, DetailsSpeed), num))
  }

  /** Entries handed to a round are new: their addresses were not seen before it; none new is missed. */
  lemma {:induction false} UnseenExact(ps: seq<Entry>, seen: set<string>)
    ensures IsSubseq(Unseen(ps, seen), ps)
    ensures forall e :: e in Unseen(ps, seen) ==> e.proxy !in seen
    ensures forall i :: 0 <= i < |ps| && ps[i].proxy !in seen ==> ps[i] in Unseen(ps, seen)
  {
    if ps != [] {
      UnseenExact(ps[1..], seen);
      var r := Unseen(ps, seen);
      var r' := Unseen(ps[1..], seen);
      if ps[0].proxy !in seen {
        assert r == [ps[0]] + r' && r[1..] == r';
      } else {
        assert r == r';
        if r != [] {
          assert IsSubseq(r, ps[1..]);
        }
      }
      forall i | 0 < i < |ps| && ps[i].proxy !in seen ensures ps[i] in r {
        assert ps[1..][i - 1] == ps[i];
      }
    }
  }

  /**
   * A round keeps what was found before and adds at most up to `num`; it
   * only adds to the seen set, marks at least its first entry, and, unless
   * it stopped at `num`, marks every entry it was given.
   */
  lemma {:induction false} RoundFacts(ps: seq<Entry>, details: Entry -> Option<Details>, num: int,
                                      valid: seq<Details>, seen: set<string>)
    requires |valid| < num
    ensures var r := RoundFrom(ps, details, num, valid, seen);
      && valid <= r.valid && |r.valid| <= num
      && seen <= r.seen
      && (ps != [] ==> ps[0].proxy in r.seen)
      && (|r.valid| < num ==> forall e :: e in ps ==> e.proxy in r.seen)
  {
    if ps != [] {
      var seen' := seen + {ps[0].proxy};
      match details(ps[0])
      case None =>
        RoundFacts(ps[1..], details, num, valid, seen');
      case Some(d) =>
        if |valid| + 1 < num {
          RoundFacts(ps[1..], details, num, valid + [d], seen');
        }
    }
  }

  /** The search keeps what it has found, and never collects more than `num`. */
  lemma {:induction false} RotateBounded(rounds: Rounds, details: Entry -> Option<Details>, num: int, budget: int,
                                         valid: seq<Details>, attempts: nat, seen: set<string>)
    ensures var r := RotateFrom(rounds, details, num, budget, valid, attempts, seen).valid;
      && valid <= r
      && (|valid| < num ==> |r| <= num)
      && (|valid| >= num ==> r == valid)
    decreases budget - attempts
  {
    if |valid| < num && attempts < budget {
      var round := rounds(attempts);
      if round.Failure? {
        RotateBounded(rounds, details, num, budget, valid, attempts + 1, seen);
      } else {
        var unseen := Unseen(round.value, seen);
        if unseen != [] {
          var r := RoundFrom(unseen, details, num, valid, seen);
          RoundFacts(unseen, details, num, valid, seen);
          RotateBounded(rounds, details, num, budget, r.valid, attempts + 1, r.seen);
        }
      }
    }
  }

  /** The search never runs more rounds than the budget allows. */
  lemma {:induction false} RotateRounds(rounds: Rounds, details: Entry -> Option<Details>, num: int, budget: int,
                                        valid: seq<Details>, attempts: nat, seen: set<string>)
    requires attempts <= budget
    ensures attempts <= RotateFrom(rounds, details, num, budget, valid, attempts, seen).attempts <= budget
    decreases budget - attempts
  {
    if |valid| < num && attempts < budget {
      var round := rounds(attempts);
      if round.Failure? {
        RotateRounds(rounds, details, num, budget, valid, attempts + 1, seen);
      } else {
        var unseen := Unseen(round.value, seen);
        if unseen != [] {
          var r := RoundFrom(unseen, details, num, valid, seen);
          RotateRounds(rounds, details, num, budget, r.valid, attempts + 1, r.seen);
        }
      }
    }
  }

  /**
   * `rotate_proxies` raises `ProxyFinderError` exactly when the search
   * found nothing; otherwise it returns everything found, none dropped by
   * the final cut, in non-decreasing speed.
   */
  lemma RotateOutcomeFacts(m: Manager, num: int, maxAttempts: int, countries: Option<seq<string>>,
                           raw: FetchInput, details: Entry -> Option<Details>)
    ensures var valid := RotateFrom(RoundsOf(Targets(m, countries), m.country, raw), details, num, maxAttempts * num, [], 0, {}).valid;
      var r := RotateOutcome(m, num, maxAttempts, countries, raw, details);
      && (r.Failure? <==> valid == [])
      && (r.Failure? ==> r.error == ProxyFinderError)
      && (r.Success? ==> SortedBy(r.value, DetailsSpeed) && multiset(r.value) == multiset(valid) && |r.value| <= num)
  {
    var valid := RotateFrom(RoundsOf(Targets(m, countries), m.country, raw), details, num, maxAttempts * num, [], 0, {}).valid;
    RotateBounded(RoundsOf(Targets(m, countries), m.country, raw), details, num, maxAttempts * num, [], 0, {});
    if valid != [] {
      var sorted := SortBy(valid, DetailsSpeed);
      SortBySorted(valid, DetailsSpeed);
      SortByPerm(valid, DetailsSpeed);
      assert Prefix(sorted, num) == sorted;
    }
  }

  /** Asking for no proxies raises: the loop never runs and nothing is found. */
  lemma ZeroRequestRaises(m: Manager, maxAttempts: int, countries: Option<seq<string>>,
                          raw: FetchInput, details: Entry -> Option<Details>)
    ensures RotateOutcome(m, 0, maxAttempts, countries, raw, details) == Failure(ProxyFinderError)
  {
  }

  /**
   * Seen addresses are checked once per round, before its loop: an address
   * listed twice in one round's fetch is validated twice and found twice.
   */
  lemma DuplicateInRoundFoundTwice(e: Entry, d: Details, details: Entry -> Option<Details>, num: int)
    requires details(e) == Some(d) && num >= 2
    ensures RoundFrom([e, e], details, num, [], {}).valid == [d, d]
  {
    assert [e, e][1..] == [e];
    assert [e][1..] == [];
    assert RoundFrom([e], details, num, [d], {e.proxy}) == RoundFrom([], details, num, [d, d], {e.proxy});
    var none: set<string> := {};
    var found: seq<Details> := [];
    assert none + {e.proxy} == {e.proxy} && found + [d] == [d];
    assert RoundFrom([e, e], details, num, [], {}) == RoundFrom([e], details, num, [d], {e.proxy});
  }

  /** The round loop of one fetch. */
  method RunRound(unseen: seq<Entry>, details: Entry -> Option<Details>, num: int,
                  valid0: seq<Details>, seen0: set<string>)
    returns (valid: seq<Details>, seen: set<string>)
    ensures RoundEnd(valid, seen) == RoundFrom(unseen, details, num, valid0, seen0)
  {
    valid, seen := valid0, seen0;
    var i := 0;
    while i < |unseen|
      invariant 0 <= i <= |unseen|
      invariant RoundFrom(unseen[i..], details, num, valid, seen) == RoundFrom(unseen, details, num, valid0, seen0)
    {
      assert unseen[i..][0] == unseen[i] && unseen[i..][1..] == unseen[i + 1..];
      var proxyData := unseen[i];
      seen := seen + {proxyData.proxy};
      var proxyDetails := details(proxyData);
      i := i + 1;
      if proxyDetails.Some? {
        valid := valid + [proxyDetails.value];
        if |valid| >= num {
          return;
        }
      }
    }
  }

  /** A multi-country round's fetch loop: a raising country is skipped. */
  method PoolCountries(countries: seq<string>, raw: FetchInput, attempt: nat) returns (all: seq<Entry>)
    ensures all == Pooled(countries, raw, attempt)
  {
    all := [];
    var j := 0;
    while j < |countries|
      invariant 0 <= j <= |countries|
      invariant all == Pooled(countries[..j], raw, attempt)
    {
      assert countries[..j + 1][..j] == countries[..j];
      var fetched := Fetched(raw, attempt, Some(countries[j]));
      if fetched.Success? {
        all := all + fetched.value;
      }
      j := j + 1;
    }
    assert countries[..|countries|] == countries;
  }

  /** A round's fetch: per country in multi-country mode, otherwise the manager's own fetcher, which may raise. */
  method FetchRound(targets: Option<seq<string>>, country: Option<string>, raw: FetchInput, attempt: nat)
    returns (round: Result<seq<Entry>, Error>)
    ensures round == RoundProxies(targets, country, raw, attempt)
  {
    if MultiMode(targets) {
      var all := PoolCountries(targets.value, raw, attempt);
      return Success(all);
    }
    round := Fetched(raw, attempt, country);
  }

  /** `rotate_proxies`: rounds until `num` are found, the budget is spent, or a round brings nothing new. */
  method RotateProxies(m: Manager, num: int, maxAttempts: int, countries: Option<seq<string>>,
                       raw: FetchInput, details: Entry -> Option<Details>)
    returns (r: Result<seq<Details>, Error>)
    ensures r == RotateOutcome(m, num, maxAttempts, countries, raw, details)
  {
    var validProxies: seq<Details> := [];
    var attempts: nat := 0;
    var seenProxies: set<string> := {};
    var targets := Targets(m, countries);
    var budget := maxAttempts * num;
    ghost var rounds := RoundsOf(targets, m.country, raw);
    while |validProxies| < num && attempts < budget
      invariant RotateFrom(rounds, details, num, budget, validProxies, attempts, seenProxies)
             == RotateFrom(rounds, details, num, budget, [], 0, {})
      decreases budget - attempts
    {
      var round := FetchRound(targets, m.country, raw, attempts);
      assert round == rounds(attempts);
      if round.Failure? {
        attempts := attempts + 1;
        continue;
      }
      var newProxies := Unseen(round.value, seenProxies);
      if newProxies == [] {
        break;
      }
      validProxies, seenProxies := RunRound(newProxies, details, num, validProxies, seenProxies);
      attempts := attempts + 1;
    }
    assert RotateFrom(rounds, details, num, budget, validProxies, attempts, seenProxies).valid == validProxies;
    if validProxies == [] {
      return Failure(ProxyFinderError);
    }
    return Success(Prefix(SortBy(validProxies, DetailsSpeed), num));
  }
}
