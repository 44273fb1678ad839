/**
 * The item filter the fetchers apply to a decoded GeoNode answer. Decoding
 * the JSON text is not part of this model: its outcome, the list under
 * `data`, is the input.
 */
module Geonode {
  import opened Wrappers
  import opened Seqs
  import opened Records

  /**
   * One item of the decoded `data` list. A missing or falsy `ip` or `port`
   * is the empty string; `country_code`, `anonymity` and `last_checked` may
   * be absent.
   */
  datatype Item = Item(
    ip: string,
    port: string,
    countryCode: Option<string>,
    anonymity: Option<string>,
    lastChecked: Option<int>)

  /** `item.get('country_code', 'unknown')`. */
  function ItemCountry(item: Item): string {
    item.countryCode.GetOr("unknown")
  }

  /** The item is taken: it has an address, and without a target or with its own code equal to it (case-sensitive). */
  predicate Wanted(item: Item, country: string) {
    item.ip != "" && item.port != "" && (country == "" || ItemCountry(item) == country)
  }

  /**
   * The record made from a taken item. `ownStamp` says whether the item's
   * own `last_checked` is kept when present; the clock reading is used
   * otherwise.
   */
  function ItemEntry(item: Item, sourceName: string, now: int, ownStamp: bool): Entry {
    var stamp := if ownStamp then item.lastChecked.GetOr(now) else now;
    Entry(item.ip + ":" + item.port, Some(ItemCountry(item)), Some(item.anonymity.GetOr("unknown")),
          sourceName, Some(stamp), None, None, None, NoStamp)
  }

  /** The records the parser appends, in item order. */
  function GeonodeEntries(items: seq<Item>, country: string, sourceName: string, now: int, ownStamp: bool): seq<Entry> {
    if items == [] then []
    else (if Wanted(items[0], country) then [ItemEntry(items[0], sourceName, now, ownStamp)] else [])
         + GeonodeEntries(items[1..], country, sourceName, now, ownStamp)
  }

  /** Parsing a list with one more item at the end appends that item's record exactly when it is taken. */
  lemma {:induction false} GeonodeSnoc(items: seq<Item>, item: Item, country: string, sourceName: string, now: int, ownStamp: bool)
    ensures GeonodeEntries(items + [item], country, sourceName, now, ownStamp)
         == GeonodeEntries(items, country, sourceName, now, ownStamp)
            + if Wanted(item, country) then [ItemEntry(item, sourceName, now, ownStamp)] else []
    decreases |items|
  {
    if items == [] {
      assert items + [item] == [item] && [item][1..] == [];
    } else {
      assert (items + [item])[0] == items[0] && (items + [item])[1..] == items[1..] + [item];
      GeonodeSnoc(items[1..], item, country, sourceName, now, ownStamp);
      var first := if Wanted(items[0], country) then [ItemEntry(items[0], sourceName, now, ownStamp)] else [];
      var last := if Wanted(item, country) then [ItemEntry(item, sourceName, now, ownStamp)] else [];
      var rest := GeonodeEntries(items[1..], country, sourceName, now, ownStamp);
      assert first + (rest + last) == (first + rest) + last;
    }
  }

  /**
   * The parser's loop over the decoded items: items without an address are
   * skipped, and so, with a target set, are items of another code.
   */
  method ParseItems(items: seq<Item>, country: string, sourceName: string, now: int, ownStamp: bool)
    returns (result: seq<Entry>)
    ensures result == GeonodeEntries(items, country, sourceName, now, ownStamp)
  {
    result := [];
    var i := 0;
    while i < |items|
      invariant 0 <= i <= |items|
      invariant result == GeonodeEntries(items[..i], country, sourceName, now, ownStamp)
    {
      var item := items[i];
      GeonodeSnoc(items[..i], item, country, sourceName, now, ownStamp);
      assert items[..i + 1] == items[..i] + [item];
      i := i + 1;
      if item.ip != "" && item.port != "" {
        var countryCode := ItemCountry(item);
        if country != "" && countryCode != country {
          continue;
        }
        result := result + [ItemEntry(item, sourceName, now, ownStamp)];
      }
    }
    assert items[..|items|] == items;
  }

  /** The items a record is made from: the taken ones, in order. */
  function WantedItems(items: seq<Item>, country: string): seq<Item> {
    if items == [] then []
    else (if Wanted(items[0], country) then [items[0]] else []) + WantedItems(items[1..], country)
  }

  /** The taken items are an order-preserving subsequence of the input, and none is missing. */
  lemma {:induction false} WantedItemsExact(items: seq<Item>, country: string)
    ensures IsSubseq(WantedItems(items, country), items)
    ensures forall it :: it in WantedItems(items, country) ==> Wanted(it, country)
    ensures forall i :: 0 <= i < |items| && Wanted(items[i], country) ==> items[i] in WantedItems(items, country)
  {
    if items != [] {
      WantedItemsExact(items[1..], country);
      var w := WantedItems(items, country);
      var w' := WantedItems(items[1..], country);
      if Wanted(items[0], country) {
        assert w == [items[0]] + w' && w[1..] == w';
      } else {
        assert w == w';
        if w != [] {
          assert IsSubseq(w, items[1..]);
        }
      }
      forall i | 0 < i < |items| && Wanted(items[i], country) ensures items[i] in w {
        assert items[1..][i - 1] == items[i];
      }
    }
  }

  /** One record per taken item, in order. */
  lemma {:induction false} GeonodeOnePerItem(items: seq<Item>, country: string, sourceName: string, now: int, ownStamp: bool)
    ensures var r := GeonodeEntries(items, country, sourceName, now, ownStamp);
      var w := WantedItems(items, country);
      |r| == |w| && forall k :: 0 <= k < |w| ==> r[k] == ItemEntry(w[k], sourceName, now, ownStamp)
  {
    if items != [] {
      GeonodeOnePerItem(items[1..], country, sourceName, now, ownStamp);
      var r := GeonodeEntries(items, country, sourceName, now, ownStamp);
      var w := WantedItems(items, country);
      var r' := GeonodeEntries(items[1..], country, sourceName, now, ownStamp);
      var w' := WantedItems(items[1..], country);
      if Wanted(items[0], country) {
        assert r == [ItemEntry(items[0], sourceName, now, ownStamp)] + r';
        assert w == [items[0]] + w';
        forall k | 0 < k < |w| ensures r[k] == ItemEntry(w[k], sourceName, now, ownStamp) {
          assert r[k] == r'[k - 1] && w[k] == w'[k - 1];
        }
      }
    }
  }

  /**
   * The records are exactly those of the taken items, one each, in order:
   * the taken items are an order-preserving subsequence of the input, none
   * is missing, and each record has the address `ip:port`, the item's code
   * ('unknown' when absent), its anonymity ('unknown' when absent), the
   * source name, and the item's own stamp when that is kept and present,
   * the clock reading otherwise.
   */
  lemma GeonodeExact(items: seq<Item>, country: string, sourceName: string, now: int, ownStamp: bool)
    ensures var r := GeonodeEntries(items, country, sourceName, now, ownStamp);
      var w := WantedItems(items, country);
      && IsSubseq(w, items)
      && |r| == |w|
      && (forall k :: 0 <= k < |w| ==>
            && Wanted(w[k], country)
            && r[k].proxy == w[k].ip + ":" + w[k].port
            && r[k].country == Some(ItemCountry(w[k]))
            && r[k].anonymity == Some(w[k].anonymity.GetOr("unknown"))
            && r[k].source == sourceName
            && r[k].lastChecked == Some(if ownStamp && w[k].lastChecked.Some? then w[k].lastChecked.value else now))
      && (forall i :: 0 <= i < |items| && Wanted(items[i], country) ==> items[i] in w)
  {
    WantedItemsExact(items, country);
    GeonodeOnePerItem(items, country, sourceName, now, ownStamp);
  }

  /** With a target set, every record carries exactly the target's code. */
  lemma {:induction false} GeonodeCountry(items: seq<Item>, country: string, sourceName: string, now: int, ownStamp: bool)
    requires country != ""
    ensures forall e :: e in GeonodeEntries(items, country, sourceName, now, ownStamp) ==> e.country == Some(country)
  {
    if items != [] {
      GeonodeCountry(items[1..], country, sourceName, now, ownStamp);
    }
  }
}
